// The index of domain rules: a tree of characters from the end of the name to its beginning, built and
// searched in place, against a plain filter of all suffixes of the host.
module DomainIndex {
  import opened Bytes
  import Routing

  type DomainResource = Routing.DomainResource

  // A rule set as the configuration names it; the map is walked in some order.
  datatype Rule = Rule(domain: string, resources: seq<DomainResource>)

  datatype Entry = Entry(domain: string, resources: seq<DomainResource>)

  // The name a rule is filed under: normalised, and a wildcard without its star.
  function NameOf(normalize: string -> string, domain: string): string {
    var n := normalize(domain);
    if "*." <= n then n[1..] else n
  }

  // ---- What the index holds, as a map from names.

  function AddEntry(entries: map<string, Entry>, name: string, rule: Rule): map<string, Entry> {
    if name == "" then entries
    else if name in entries then
      entries[name := entries[name].(resources := entries[name].resources + rule.resources)]
    else entries[name := Entry(rule.domain, rule.resources)]
  }

  function Entries(normalize: string -> string, rules: seq<Rule>): map<string, Entry> {
    if rules == [] then map[]
    else
      var n := |rules| - 1;
      AddEntry(Entries(normalize, rules[..n]), NameOf(normalize, rules[n].domain), rules[n])
  }

  // ---- What a lookup must find: a linear filter.

  // The suffix of the host that starts at `pos` starts at a label boundary.
  predicate Boundary(host: string, pos: nat)
    requires pos < |host|
  {
    pos == 0 || host[pos] == '.' || host[pos - 1] == '.'
  }

  // All resources filed under one name, in the order of the rules; and the rule that came first.
  function ResourcesFor(normalize: string -> string, rules: seq<Rule>, name: string): seq<DomainResource> {
    if rules == [] then []
    else (if NameOf(normalize, rules[0].domain) == name then rules[0].resources else []) + ResourcesFor(normalize, rules[1..], name)
  }

  function FirstRule(normalize: string -> string, rules: seq<Rule>, name: string): Option<Rule> {
    if rules == [] then None
    else if NameOf(normalize, rules[0].domain) == name then Some(rules[0])
    else FirstRule(normalize, rules[1..], name)
  }

  // The names among the suffixes of the host from `pos` on that some rule has, longest first.
  function MatchingNames(normalize: string -> string, rules: seq<Rule>, host: string, pos: nat): seq<string>
    requires pos <= |host|
    decreases |host| - pos
  {
    if pos == |host| then []
    else
      (if Boundary(host, pos) && FirstRule(normalize, rules, host[pos..]).Some? then [host[pos..]] else [])
      + MatchingNames(normalize, rules, host, pos + 1)
  }

  function ResourcesOf(normalize: string -> string, rules: seq<Rule>, names: seq<string>): seq<DomainResource> {
    if names == [] then [] else ResourcesFor(normalize, rules, names[0]) + ResourcesOf(normalize, rules, names[1..])
  }

  datatype Found = NotFound | Found(domain: string, resources: seq<DomainResource>)

  function Filter(normalize: string -> string, rules: seq<Rule>, host: string): Found {
    var names := MatchingNames(normalize, rules, host, 0);
    if names == [] then NotFound
    else
      match FirstRule(normalize, rules, names[0])
      case Some(rule) => Found(rule.domain, ResourcesOf(normalize, rules, names))
      case None => NotFound
  }

  // ---- The entries are what the filter sees.

  lemma {:induction false} FilterAppend(normalize: string -> string, rules: seq<Rule>, rule: Rule, name: string)
    ensures var all, hit := rules + [rule], NameOf(normalize, rule.domain) == name;
      && ResourcesFor(normalize, all, name) == ResourcesFor(normalize, rules, name) + (if hit then rule.resources else [])
      && FirstRule(normalize, all, name) ==
           if FirstRule(normalize, rules, name).Some? then FirstRule(normalize, rules, name) else if hit then Some(rule) else None
  {
    if rules == [] {
      assert (rules + [rule])[1..] == [];
    } else {
      FilterAppend(normalize, rules[1..], rule, name);
      assert (rules + [rule])[1..] == rules[1..] + [rule];
    }
  }

  ghost predicate EntryIs(entries: map<string, Entry>, normalize: string -> string, rules: seq<Rule>, name: string) {
    && (name in entries <==> name != "" && FirstRule(normalize, rules, name).Some?)
    && (name in entries ==>
          entries[name] == Entry(FirstRule(normalize, rules, name).value.domain, ResourcesFor(normalize, rules, name)))
    && (FirstRule(normalize, rules, name).None? ==> ResourcesFor(normalize, rules, name) == [])
  }

  lemma {:induction false} EntriesHold(normalize: string -> string, rules: seq<Rule>, name: string)
    ensures EntryIs(Entries(normalize, rules), normalize, rules, name)
  {
    if rules != [] {
      var n := |rules| - 1;
      EntriesHold(normalize, rules[..n], name);
      FilterAppend(normalize, rules[..n], rules[n], name);
      assert rules[..n] + [rules[n]] == rules;
    }
  }

  // The entries met on the way from the end of the host to `pos`, shortest name first.
  function Met(entries: map<string, Entry>, host: string, pos: nat): seq<Entry>
    requires pos <= |host|
    decreases |host| - pos
  {
    if pos == |host| then []
    else
      Met(entries, host, pos + 1) + (if host[pos..] in entries && Boundary(host, pos) then [entries[host[pos..]]] else [])
  }

  function Backwards(matches: seq<Entry>): seq<DomainResource> {
    if matches == [] then [] else matches[|matches| - 1].resources + Backwards(matches[..|matches| - 1])
  }

  lemma {:induction false} MetIsFilter(normalize: string -> string, rules: seq<Rule>, host: string, pos: nat)
    requires pos <= |host|
    ensures var met := Met(Entries(normalize, rules), host, pos);
      var names := MatchingNames(normalize, rules, host, pos);
      && |met| == |names| && Backwards(met) == ResourcesOf(normalize, rules, names)
      && (met != [] ==> FirstRule(normalize, rules, names[0]).Some?
                        && met[|met| - 1].domain == FirstRule(normalize, rules, names[0]).value.domain)
    decreases |host| - pos
  {
    hide ResourcesFor, FirstRule, Entries, Boundary, ResourcesOf, Backwards, Met, MatchingNames, EntryIs;
    if pos == |host| {
      NothingMet(normalize, rules, host);
    } else {
      MetIsFilter(normalize, rules, host, pos + 1);
      MetUnfolds(normalize, rules, host, pos);
      EntryKnown(normalize, rules, host[pos..]);
      var entries := Entries(normalize, rules);
      var met, names := Met(entries, host, pos + 1), MatchingNames(normalize, rules, host, pos + 1);
      if host[pos..] in entries && Boundary(host, pos) {
        BackwardsAppend(met, entries[host[pos..]]);
        ResourcesOfCons(normalize, rules, host[pos..], names);
      }
    }
  }

  lemma NothingMet(normalize: string -> string, rules: seq<Rule>, host: string)
    ensures Met(Entries(normalize, rules), host, |host|) == [] && MatchingNames(normalize, rules, host, |host|) == []
    ensures Backwards([]) == [] && ResourcesOf(normalize, rules, []) == []
  {}

  lemma EntryKnown(normalize: string -> string, rules: seq<Rule>, name: string)
    requires name != ""
    ensures var entries, first := Entries(normalize, rules), FirstRule(normalize, rules, name);
      && (name in entries <==> first.Some?)
      && (name in entries ==> entries[name] == Entry(first.value.domain, ResourcesFor(normalize, rules, name)))
  {
    EntriesHold(normalize, rules, name);
    hide Entries, FirstRule, ResourcesFor;
  }

  lemma MetUnfolds(normalize: string -> string, rules: seq<Rule>, host: string, pos: nat)
    requires pos < |host|
    ensures
      var entries := Entries(normalize, rules);
      var met, hit := Met(entries, host, pos + 1), host[pos..] in entries && Boundary(host, pos);
      Met(entries, host, pos) == if hit then met + [entries[host[pos..]]] else met
    ensures
      var names, hit := MatchingNames(normalize, rules, host, pos + 1),
                        Boundary(host, pos) && FirstRule(normalize, rules, host[pos..]).Some?;
      MatchingNames(normalize, rules, host, pos) == if hit then [host[pos..]] + names else names
  {
    hide ResourcesFor, FirstRule, Entries, Boundary;
  }

  lemma ResourcesOfCons(normalize: string -> string, rules: seq<Rule>, name: string, names: seq<string>)
    ensures ResourcesOf(normalize, rules, [name] + names) == ResourcesFor(normalize, rules, name) + ResourcesOf(normalize, rules, names)
  {
    assert ([name] + names)[1..] == names;
  }

  lemma BackwardsAppend(matches: seq<Entry>, e: Entry)
    ensures Backwards(matches + [e]) == e.resources + Backwards(matches)
  {
    assert (matches + [e])[..|matches|] == matches;
  }

  // ---- The tree.

  class Node {
    var children: map<char, Node>
    var entry: Option<Entry>

    constructor ()
      ensures children == map[] && entry == None
    {
      children, entry := map[], None;
    }
  }

  datatype NodeView = NodeView(node: Node, children: map<char, Node>, entry: Option<Entry>)

  ghost function ViewOf(nodes: map<string, Node>): map<string, NodeView>
    reads nodes.Values
  {
    map s | s in nodes :: NodeView(nodes[s], nodes[s].children, nodes[s].entry)
  }

  // A node's children are the suffixes one character longer, and its entry is the one filed there.
  ghost predicate NodeOk(v: map<string, NodeView>, entries: map<string, Entry>, s: string)
    requires s in v
  {
    && (forall c :: c in v[s].children ==> [c] + s in v && v[[c] + s].node == v[s].children[c])
    && (forall c :: [c] + s in v ==> c in v[s].children)
    && v[s].entry == (if s in entries then Some(entries[s]) else None)
  }

  ghost predicate PathsOk(v: map<string, NodeView>, root: Node) {
    && "" in v && v[""].node == root
    && (forall s :: s in v && s != "" ==> s[1..] in v)
    && (forall s, t :: s in v && t in v && v[s].node == v[t].node ==> s == t)
  }

  ghost predicate Sound(v: map<string, NodeView>, root: Node, entries: map<string, Entry>) {
    && PathsOk(v, root)
    && (forall s :: s in v ==> NodeOk(v, entries, s))
    && entries.Keys <= v.Keys
  }

  // A new leaf under the node at `path`.
  ghost function Extended(v: map<string, NodeView>, path: string, c: char, child: Node): map<string, NodeView>
    requires path in v
  {
    v[path := v[path].(children := v[path].children[c := child])][[c] + path := NodeView(child, map[], None)]
  }

  lemma ExtendSound(v: map<string, NodeView>, root: Node, entries: map<string, Entry>, path: string, c: char,
          child: Node)
    requires Sound(v, root, entries) && path in v && c !in v[path].children && forall s :: s in v ==> v[s].node != child
    ensures Sound(Extended(v, path, c, child), root, entries) && [c] + path !in v
  {
    var v', longer := Extended(v, path, c, child), [c] + path;
    assert NodeOk(v, entries, path);
    assert longer[1..] == path;
    ExtendPaths(v, root, path, c, child);
    forall s | s in v' ensures NodeOk(v', entries, s) {
      if s in v { assert NodeOk(v, entries, s); ExtendNode(v, entries, path, c, child, s); } else { NewLeaf(v, root, path, c, child, longer); }
    }
  }

  lemma ExtendPaths(v: map<string, NodeView>, root: Node, path: string, c: char, child: Node)
    requires PathsOk(v, root) && path in v && [c] + path !in v && forall s :: s in v ==> v[s].node != child
    ensures PathsOk(Extended(v, path, c, child), root)
  {
    assert ([c] + path)[1..] == path;
  }

  lemma ExtendNode(v: map<string, NodeView>, entries: map<string, Entry>, path: string, c: char, child: Node, s: string)
    requires path in v && s in v && NodeOk(v, entries, s) && [c] + path !in v
    ensures NodeOk(Extended(v, path, c, child), entries, s)
  {
    var v' := Extended(v, path, c, child);
    forall d | [d] + s in v' ensures d in v'[s].children && v'[[d] + s].node == v'[s].children[d] {
      if [d] + s == [c] + path {
        assert ([d] + s)[1..] == s && ([c] + path)[1..] == path && ([d] + s)[0] == d;
      }
    }
    forall d | d in v'[s].children ensures [d] + s in v' {}
  }

  lemma NewLeaf(v: map<string, NodeView>, root: Node, path: string, c: char, child: Node, longer: string)
    requires PathsOk(v, root) && path in v && longer == [c] + path && longer !in v
    ensures forall d :: [d] + longer !in Extended(v, path, c, child)
  {
    forall d ensures [d] + longer !in Extended(v, path, c, child) {
      assert ([d] + longer)[1..] == longer;
    }
  }

  lemma FileSound(v: map<string, NodeView>, root: Node, entries: map<string, Entry>, s: string, e: Entry)
    requires Sound(v, root, entries) && s in v
    ensures Sound(v[s := v[s].(entry := Some(e))], root, entries[s := e])
  {
    var v' := v[s := v[s].(entry := Some(e))];
    forall t | t in v' ensures NodeOk(v', entries[s := e], t) { assert NodeOk(v, entries, t); }
  }

  class Index {
    const root: Node
    ghost var nodes: map<string, Node>  // by the suffix that leads there from the root
    ghost var entries: map<string, Entry>

    ghost predicate Valid()
      reads this, nodes.Values
    {
      Sound(ViewOf(nodes), root, entries)
    }

    constructor (normalize: string -> string, rules: seq<Rule>)
      ensures Valid() && entries == Entries(normalize, rules)
    {
      var n := new Node();
      root := n;
      nodes, entries := map["" := n], map[];
      new;
      assert ViewOf(nodes) == map["" := NodeView(n, map[], None)];
      InsertAll(normalize, rules);
    }

    // The loop of newDomainResourceIndex.
    method InsertAll(normalize: string -> string, rules: seq<Rule>)
      requires Valid() && entries == map[]
      modifies this, nodes.Values
      ensures Valid() && entries == Entries(normalize, rules)
    {
      hide Sound, ViewOf, NameOf;
      var i := 0;
      while i < |rules|
        invariant i <= |rules| && Valid() && fresh(nodes.Values - old(nodes.Values)) && entries == Entries(normalize, rules[..i])
      {
        assert rules[..i + 1][..i] == rules[..i];
        var name := NameOf(normalize, rules[i].domain);
        if name != "" { Insert(name, rules[i]); }
        i := i + 1;
      }
      assert rules[..i] == rules;
    }

    // The node for `name`, made with its whole path if need be.
    method Walk(name: string) returns (node: Node)
      requires Valid()
      modifies this`nodes, nodes.Values`children
      ensures Valid() && name in nodes && nodes[name] == node
      ensures old(nodes.Values) <= nodes.Values && fresh(nodes.Values - old(nodes.Values))
    {
      RootKnown();
      hide Sound, ViewOf;
      node := root;
      var pos := |name|;
      assert name[pos..] == "";
      while pos > 0
        invariant 0 <= pos <= |name| && Valid() && name[pos..] in nodes && nodes[name[pos..]] == node
        invariant old(nodes.Values) <= nodes.Values && fresh(nodes.Values - old(nodes.Values))
      {
        assert node in nodes.Values;
        Longer(name, pos - 1);
        node := Descend(node, name[pos - 1], name[pos..]);
        pos := pos - 1;
      }
      assert name[0..] == name;
    }

    static lemma Longer(name: string, pos: nat)
      requires pos < |name|
      ensures name[pos..] == [name[pos]] + name[pos + 1..]
    {}

    lemma RootKnown()
      requires Valid()
      ensures "" in nodes && nodes[""] == root
    {
      assert "" in ViewOf(nodes);
    }

    method Insert(name: string, rule: Rule)
      requires Valid() && name != ""
      modifies this, nodes.Values
      ensures Valid() && entries == AddEntry(old(entries), name, rule)
      ensures fresh(nodes.Values - old(nodes.Values))
    {
      var node := Walk(name);
      assert node in nodes.Values;
      File(node, name, rule);
    }

    method File(node: Node, name: string, rule: Rule)
      requires Valid() && name in nodes && nodes[name] == node && name != ""
      modifies this`entries, node`entry
      ensures Valid() && entries == AddEntry(old(entries), name, rule)
    {
      hide Sound;
      ghost var v := ViewOf(nodes);
      FiledAt(v, root, entries, name);
      assert v[name].entry == node.entry;
      OneRef(v, root, entries, name);
      var entry := if node.entry.Some? then node.entry.value else Entry(rule.domain, []);
      entry := entry.(resources := entry.resources + rule.resources);
      assert [] + rule.resources == rule.resources;
      FileSound(v, root, entries, name, entry);
      node.entry := Some(entry);
      entries := entries[name := entry];
      assert ViewOf(nodes) == v[name := v[name].(entry := Some(entry))];
    }

    static lemma FiledAt(v: map<string, NodeView>, root: Node, entries: map<string, Entry>, name: string)
      requires Sound(v, root, entries) && name in v
      ensures v[name].entry == if name in entries then Some(entries[name]) else None
    {
      assert NodeOk(v, entries, name);
    }

    // The entries of the host's suffixes that start at a label boundary, shortest first; the walk ends where
    // the tree does.
    method Search(host: string) returns (matches: seq<Entry>)
      requires Valid()
      ensures matches == Met(entries, host, 0)
    {
      RootKnown();
      var node := root;
      var pos := |host|;
      matches := [];
      assert host[pos..] == "";
      while pos > 0
        invariant 0 <= pos <= |host| && host[pos..] in nodes && nodes[host[pos..]] == node
        invariant matches == Met(entries, host, pos)
      {
        StepDown(node, host, pos);
        if host[pos - 1] !in node.children {
          NothingBelow(host, pos - 1);
          return;
        }
        node := node.children[host[pos - 1]];
        pos := pos - 1;
        if node.entry.Some? && Boundary(host, pos) { matches := matches + [node.entry.value]; }
      }
    }

    lemma StepDown(node: Node, host: string, pos: nat)
      requires Valid() && 0 < pos <= |host| && host[pos..] in nodes && nodes[host[pos..]] == node
      ensures host[pos - 1] in node.children <==> host[pos - 1..] in nodes
      ensures host[pos - 1] in node.children ==>
                var child := node.children[host[pos - 1]];
                && nodes[host[pos - 1..]] == child
                && child.entry == if host[pos - 1..] in entries then Some(entries[host[pos - 1..]]) else None
    {
      var v := ViewOf(nodes);
      assert host[pos - 1..] == [host[pos - 1]] + host[pos..];
      assert NodeOk(v, entries, host[pos..]);
      if host[pos - 1..] in v { assert NodeOk(v, entries, host[pos - 1..]); }
    }

    // Where a suffix has no node, no longer one has an entry.
    lemma {:induction false} NothingBelow(host: string, pos: nat)
      requires Valid() && pos < |host| && host[pos..] !in nodes
      ensures Met(entries, host, 0) == Met(entries, host, pos + 1)
      decreases pos
    {
      assert host[pos..] !in ViewOf(nodes);
      if pos > 0 {
        assert host[pos - 1..][1..] == host[pos..];
        assert host[pos - 1..] !in ViewOf(nodes);
        NothingBelow(host, pos - 1);
      }
    }

    // One character down from the node at `path`, making the child if it is missing.
    method Descend(node: Node, c: char, ghost path: string) returns (child: Node)
      requires Valid() && path in nodes && nodes[path] == node
      modifies this`nodes, node`children
      ensures Valid() && [c] + path in nodes && nodes[[c] + path] == child
      ensures old(nodes.Values) <= nodes.Values && fresh(nodes.Values - old(nodes.Values))
    {
      if c in node.children {
        assert NodeOk(ViewOf(nodes), entries, path);
        return node.children[c];
      }
      child := new Node();
      Extend(node, c, child, path);
    }

    method Extend(node: Node, c: char, child: Node, ghost path: string)
      requires Valid() && path in nodes && nodes[path] == node && c !in node.children
      requires child !in nodes.Values && child.children == map[] && child.entry == None
      modifies this`nodes, node`children
      ensures Valid() && nodes == old(nodes)[[c] + path := child] && nodes.Values == old(nodes.Values) + {child}
    {
      hide Sound;
      ghost var v := ViewOf(nodes);
      assert forall s :: s in nodes ==> nodes[s] in nodes.Values;
      ExtendSound(v, root, entries, path, c, child);
      OneRef(v, root, entries, path);
      node.children := node.children[c := child];
      nodes := nodes[[c] + path := child];
      ValuesInsert(old(nodes), [c] + path, child);
      assert ViewOf(nodes) == Extended(v, path, c, child);
    }

    static lemma OneRef(v: map<string, NodeView>, root: Node, entries: map<string, Entry>, path: string)
      requires Sound(v, root, entries) && path in v
      ensures forall s :: s in v && s != path ==> v[s].node != v[path].node
    {}

    static lemma ValuesInsert(m: map<string, Node>, s: string, n: Node)
      requires s !in m
      ensures m[s := n].Values == m.Values + {n}
    {
      assert forall t :: t in m ==> m[s := n][t] == m[t];
      assert m[s := n][s] == n;
    }
  }

  // ---- What a rule is for, by its own text.

  ghost predicate EndsWith(host: string, tail: string) {
    |tail| <= |host| && host[|host| - |tail|..] == tail
  }

  // A wildcard `*.d` covers what ends in `.d`, and so not `d` itself; a plain `d` covers itself and what
  // ends in `.d`. A plain rule that begins with a dot covers what a wildcard would.
  ghost predicate Covers(n: string, host: string) {
    if "*." <= n then EndsWith(host, "." + n[2..])
    else if "." <= n then EndsWith(host, n)
    else n != "" && (host == n || EndsWith(host, "." + n))
  }

  // Some suffix of the host at a label boundary is the name.
  ghost predicate NameMatches(host: string, name: string) {
    0 < |name| <= |host| && host[|host| - |name|..] == name && Boundary(host, |host| - |name|)
  }

  // How much of the host's end a rule tells.
  function Specificity(n: string): nat {
    if "*." <= n then |n| - 1 else |n|
  }

  // A rule's name matches exactly the hosts the rule covers.
  lemma NameMeansRule(normalize: string -> string, domain: string, host: string)
    ensures |NameOf(normalize, domain)| == Specificity(normalize(domain))
    ensures NameMatches(host, NameOf(normalize, domain)) <==> Covers(normalize(domain), host)
  {
    var n := normalize(domain);
    if "*." <= n {
      assert n[1..] == "." + n[2..];
    } else if n != "" {
      var k := |host| - |n|;
      if k > 0 && host[k..] == n { assert host[k - 1..] == [host[k - 1]] + host[k..]; }
      if EndsWith(host, "." + n) { assert host[k - 1..][1..] == host[k..]; }
    }
  }

  // The resources of the rules of one specificity that cover the host, in the order of the rules.
  ghost function CoveringAt(normalize: string -> string, rules: seq<Rule>, host: string, n: nat): seq<DomainResource> {
    if rules == [] then []
    else
      var d := normalize(rules[0].domain);
      (if Covers(d, host) && Specificity(d) == n then rules[0].resources else []) + CoveringAt(normalize, rules[1..], host, n)
  }

  // All of them, the most specific rules first.
  ghost function MostSpecificFirst(normalize: string -> string, rules: seq<Rule>, host: string, n: nat): seq<DomainResource> {
    if n == 0 then [] else CoveringAt(normalize, rules, host, n) + MostSpecificFirst(normalize, rules, host, n - 1)
  }

  ghost predicate CoveredBy(normalize: string -> string, rules: seq<Rule>, host: string, i: nat) {
    i < |rules| && Covers(normalize(rules[i].domain), host)
  }

  // Something is found exactly when some rule covers the host. It is the resources of exactly the rules
  // that do, the most specific first, under the domain of the first of the most specific ones.
  ghost predicate MeansCovering(found: Found, normalize: string -> string, rules: seq<Rule>, host: string) {
    && (found.Found? <==> exists i: nat :: CoveredBy(normalize, rules, host, i))
    && (found.Found? ==>
          && found.resources == MostSpecificFirst(normalize, rules, host, |host|)
          && exists i: nat :: CoveredBy(normalize, rules, host, i) && rules[i].domain == found.domain
                         && IsMostSpecific(normalize, rules, host, i))
  }

  ghost predicate IsMostSpecific(normalize: string -> string, rules: seq<Rule>, host: string, i: nat)
    requires i < |rules|
  {
    forall j: nat :: CoveredBy(normalize, rules, host, j) ==>
      && Specificity(normalize(rules[j].domain)) <= Specificity(normalize(rules[i].domain))
      && (Specificity(normalize(rules[j].domain)) == Specificity(normalize(rules[i].domain)) ==> i <= j)
  }

  // A name is met at one place at most.
  lemma MetAtOnePlace(normalize: string -> string, domain: string, host: string, pos: nat)
    requires pos < |host|
    ensures Boundary(host, pos) && NameOf(normalize, domain) == host[pos..] <==>
              Covers(normalize(domain), host) && Specificity(normalize(domain)) == |host| - pos
  {
    hide NameOf, Covers, Boundary, Specificity;
    NameMeansRule(normalize, domain, host);
  }

  lemma {:induction false} ResourcesAtOnePlace(normalize: string -> string, rules: seq<Rule>, host: string, pos: nat)
    requires pos < |host|
    ensures (if Boundary(host, pos) then ResourcesFor(normalize, rules, host[pos..]) else []) ==
              CoveringAt(normalize, rules, host, |host| - pos)
  {
    hide NameOf, Covers, Boundary, Specificity;
    if rules != [] {
      ResourcesAtOnePlace(normalize, rules[1..], host, pos);
      MetAtOnePlace(normalize, rules[0].domain, host, pos);
    }
  }

  lemma {:induction false} MatchingIsCovering(normalize: string -> string, rules: seq<Rule>, host: string, pos: nat)
    requires pos <= |host|
    ensures ResourcesOf(normalize, rules, MatchingNames(normalize, rules, host, pos)) ==
              MostSpecificFirst(normalize, rules, host, |host| - pos)
    decreases |host| - pos
  {
    hide ResourcesFor, FirstRule, Entries, Boundary, ResourcesOf, Met, MatchingNames, CoveringAt;
    if pos == |host| {
      NothingMet(normalize, rules, host);
    } else {
      var name := host[pos..];
      MatchingIsCovering(normalize, rules, host, pos + 1);
      NothingForNobody(normalize, rules, name);
      ResourcesOfCons(normalize, rules, name, MatchingNames(normalize, rules, host, pos + 1));
      MetUnfolds(normalize, rules, host, pos);
      ResourcesAtOnePlace(normalize, rules, host, pos);
    }
  }

  lemma NothingForNobody(normalize: string -> string, rules: seq<Rule>, name: string)
    ensures FirstRule(normalize, rules, name).None? ==> ResourcesFor(normalize, rules, name) == []
  {
    EntriesHold(normalize, rules, name);
  }

  lemma {:induction false} FirstRuleIs(normalize: string -> string, rules: seq<Rule>, name: string) returns (first: nat)
    ensures FirstRule(normalize, rules, name).Some? ==>
              first < |rules| && FirstRule(normalize, rules, name) == Some(rules[first])
              && NameOf(normalize, rules[first].domain) == name
    ensures forall i :: 0 <= i < |rules| && NameOf(normalize, rules[i].domain) == name ==>
              FirstRule(normalize, rules, name).Some? && first <= i
  {
    hide NameOf;
    first := 0;
    if rules != [] && NameOf(normalize, rules[0].domain) != name {
      first := FirstRuleIs(normalize, rules[1..], name);
      first := first + 1;
      forall i | 0 <= i < |rules| && NameOf(normalize, rules[i].domain) == name
        ensures FirstRule(normalize, rules, name).Some? && first <= i
      {
        assert rules[1..][i - 1] == rules[i];
      }
    }
  }

  // The first matching name is the longest: no name is met further to the front.
  lemma {:induction false} FirstNameIsLongest(normalize: string -> string, rules: seq<Rule>, host: string, pos: nat)
    returns (at: nat)
    requires pos <= |host|
    ensures var names := MatchingNames(normalize, rules, host, pos);
      && pos <= at <= |host| && (names == [] <==> at == |host|)
      && (names != [] ==> names[0] == host[at..] && Boundary(host, at) && FirstRule(normalize, rules, names[0]).Some?)
      && forall q :: pos <= q < at ==> !(Boundary(host, q) && FirstRule(normalize, rules, host[q..]).Some?)
    decreases |host| - pos
  {
    hide FirstRule, Boundary;
    at := pos;
    if pos < |host| && !(Boundary(host, pos) && FirstRule(normalize, rules, host[pos..]).Some?) {
      at := FirstNameIsLongest(normalize, rules, host, pos + 1);
    }
  }

  // A rule that covers the host is met, at the place its specificity says, and not before the first name.
  lemma CoveringIsMet(normalize: string -> string, rules: seq<Rule>, host: string, i: nat, at: nat)
    requires CoveredBy(normalize, rules, host, i) && at <= |host|
    requires forall q :: 0 <= q < at ==> !(Boundary(host, q) && FirstRule(normalize, rules, host[q..]).Some?)
    ensures Specificity(normalize(rules[i].domain)) <= |host| - at && at < |host|
  {
    var name := NameOf(normalize, rules[i].domain);
    NameMeansRule(normalize, rules[i].domain, host);
    assert 0 < |name| <= |host| && host[|host| - |name|..] == name && Boundary(host, |host| - |name|);
    hide NameOf, Covers, Boundary, FirstRule, Specificity;
    var first := FirstRuleIs(normalize, rules, name);
  }

  // What the filter finds is what the rules are for.
  lemma FilterMeansCovering(normalize: string -> string, rules: seq<Rule>, host: string)
    ensures MeansCovering(Filter(normalize, rules, host), normalize, rules, host)
  {
    hide NameOf, Boundary, Covers, ResourcesOf, MostSpecificFirst, MatchingNames, FirstRule, Specificity;
    MatchingIsCovering(normalize, rules, host, 0);
    var at := FirstNameIsLongest(normalize, rules, host, 0);
    forall i: nat | CoveredBy(normalize, rules, host, i) ensures at < |host| { CoveringIsMet(normalize, rules, host, i, at); }
    if at < |host| { FirstIsMostSpecific(normalize, rules, host, at); }
  }

  lemma FirstIsMostSpecific(normalize: string -> string, rules: seq<Rule>, host: string, at: nat)
    requires at < |host| && Boundary(host, at) && FirstRule(normalize, rules, host[at..]).Some?
    requires forall q :: 0 <= q < at ==> !(Boundary(host, q) && FirstRule(normalize, rules, host[q..]).Some?)
    ensures exists i: nat :: CoveredBy(normalize, rules, host, i) && rules[i] == FirstRule(normalize, rules, host[at..]).value
                        && IsMostSpecific(normalize, rules, host, i)
  {
    hide NameOf, Boundary, Covers, FirstRule, Specificity;
    var i := FirstRuleIs(normalize, rules, host[at..]);
    MetAtOnePlace(normalize, rules[i].domain, host, at);
    forall j: nat | CoveredBy(normalize, rules, host, j)
      ensures Specificity(normalize(rules[j].domain)) <= |host| - at
      ensures Specificity(normalize(rules[j].domain)) == |host| - at ==> i <= j
    {
      CoveringIsMet(normalize, rules, host, j, at);
      MetAtOnePlace(normalize, rules[j].domain, host, at);
    }
    assert CoveredBy(normalize, rules, host, i) && IsMostSpecific(normalize, rules, host, i);
  }

  // Match finds exactly what filtering all suffixes of the host finds: the longest matching name's first
  // rule, and the resources of all matching names, most specific first.
  method Match(i: Index?, host: string, ghost normalize: string -> string,
          ghost rules: seq<Rule>) returns (found: Found)
    requires i != null ==> i.Valid() && i.entries == Entries(normalize, rules)
    ensures found == if i == null then NotFound else Filter(normalize, rules, host)
    ensures i != null ==> MeansCovering(found, normalize, rules, host)
  {
    if i == null { return NotFound; }
    var matches := i.Search(host);
    MetIsFilter(normalize, rules, host, 0);
    FilterMeansCovering(normalize, rules, host);
    if matches == [] { return NotFound; }
    var resources := Collect(matches);
    return Found(matches[|matches| - 1].domain, resources);
  }

  method Collect(matches: seq<Entry>) returns (resources: seq<DomainResource>)
    ensures resources == Backwards(matches)
  {
    resources := [];
    var pos := |matches|;
    assert matches[..pos] == matches;
    while pos > 0
      invariant 0 <= pos <= |matches| && resources + Backwards(matches[..pos]) == Backwards(matches)
    {
      pos := pos - 1;
      assert matches[..pos + 1] == matches[..pos] + [matches[pos]];
      BackwardsAppend(matches[..pos], matches[pos]);
      resources := resources + matches[pos].resources;
    }
  }

  // A wildcard does not cover its apex, and nothing that merely ends in the same letters.
  lemma WildcardsOnlyBelow(d: string, front: string)
    requires d != ""
    ensures !Covers("*." + d, d) && Covers("*." + d, front + "." + d)
    ensures !("." <= d) && !("*." <= d) ==> Covers(d, d) && Covers(d, front + "." + d)
    ensures front != "" && front[|front| - 1] != '.' && !("." <= d) ==> !Covers("*." + d, front + d)
  {
    var n, below, beside := "*." + d, front + "." + d, front + d;
    assert n[2..] == d;
    assert |below| - |"." + d| == |front| && below[|front|..] == "." + d;
    assert EndsWith(below, "." + d);
    if front != "" {
      assert |beside| - |"." + d| == |front| - 1 && beside[|front| - 1..] == [front[|front| - 1]] + d;
      assert beside[|front| - 1..][0] == front[|front| - 1] && ("." + d)[0] == '.';
    }
  }
}
