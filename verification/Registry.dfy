/** The client registry and its name index (src/adap.h, src/disp.cc:228-245, 594-624). */
module Registry {
  import opened Wire

  datatype Info = Info(id: nat, pid: int, name: string, methods: set<string>, flags: uint32)

  datatype Registry = Registry(named: map<string, Id>, infos: map<Id, Info>, monitors: map<Id, Info>, idseq: nat)

  /** adapter->info: a monitor entry hides an ordinary one. */
  function Lookup(r: Registry, a: Id): Option<Info> {
    if a in r.monitors then Some(r.monitors[a])
    else if a in r.infos then Some(r.infos[a])
    else None
  }

  function NameOf(r: Registry, a: Id): string {
    match Lookup(r, a) case Some(i) => i.name case None => ""
  }

  predicate HasMethod(r: Registry, a: Id, name: string) {
    match Lookup(r, a) case Some(i) => name in i.methods case None => false
  }

  predicate NameTaken(r: Registry, name: string) { name != "" && name in r.named }

  /** A free name is bound first; the info is stored only if the adapter has none. */
  function AddAdapter(r: Registry, a: Id, name: string, flags: uint32, pid: int): Registry
    requires !NameTaken(r, name)
  {
    r.(named := if name != "" then r.named[name := a] else r.named,
       infos := if a in r.infos then r.infos else r.infos[a := Info(r.idseq + 1, pid, name, {}, flags)],
       idseq := r.idseq + 1)
  }

  function AddMonitor(r: Registry, a: Id, name: string, flags: uint32): Registry {
    r.(monitors := if a in r.monitors then r.monitors else r.monitors[a := Info(r.idseq + 1, 0, name, {}, flags)],
       idseq := r.idseq + 1)
  }

  function Erase(r: Registry, a: Id): Registry {
    match Lookup(r, a)
    case None => r
    case Some(i) =>
      var r := if i.name != "" then r.(named := r.named - {i.name}) else r;
      if a in r.monitors then r.(monitors := r.monitors - {a}) else r.(infos := r.infos - {a})
  }

  function SetMethods(r: Registry, a: Id, methods: set<string>): Registry
    requires a in r.infos
  {
    r.(infos := r.infos[a := r.infos[a].(methods := methods)])
  }

  // ---- the registry as a list ----

  predicate IsLeast(k: Id, s: set<Id>) { k in s && forall j | j in s :: k <= j }

  lemma {:induction false} LeastExists(s: set<Id>) returns (k: Id)
    requires s != {}
    ensures IsLeast(k, s)
  {
    k :| k in s;
    var rest := s - {k};
    assert forall j | j in s :: j == k || j in rest;
    if rest != {} {
      var m := LeastExists(rest);
      if m < k { k := m; }
    }
  }

  function Least(s: set<Id>): (k: Id)
    requires s != {}
    ensures IsLeast(k, s)
  {
    assert exists k :: IsLeast(k, s) by { var k := LeastExists(s); }
    var k :| IsLeast(k, s);
    k
  }

  function ToItem(i: Info): Item { Item(i.id, i.pid, i.name, i.flags) }

  /** All registered clients in address order, as list_all sends them. */
  function Items(infos: map<Id, Info>): seq<Item>
    decreases infos.Keys
  {
    if infos == map[] then [] else
    var k := Least(infos.Keys);
    [ToItem(infos[k])] + Items(infos - {k})
  }
}
