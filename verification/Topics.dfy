/** Subscription lists and last-value messages (src/disp.cc:247-344). */
module Topics {
  import opened Wire

  datatype Topics = Topics(subs: map<string, seq<Id>>, persist: map<string, Caps>)

  function Subscribers(t: Topics, name: string): seq<Id> {
    if name in t.subs then t.subs[name] else []
  }

  function Audience(t: Topics, name: string): set<Id> { set x | x in Subscribers(t, name) }

  /** The entries of a list that belong to a set, in list order. */
  function Keep(l: seq<Id>, s: set<Id>): seq<Id> {
    if l == [] then []
    else if l[0] in s then [l[0]] + Keep(l[1..], s)
    else Keep(l[1..], s)
  }

  /** Replace one list by what is kept of it; an empty list is not stored. */
  function Prune(subs: map<string, seq<Id>>, name: string, keep: set<Id>): map<string, seq<Id>> {
    if name !in subs then subs
    else if Keep(subs[name], keep) == [] then subs - {name}
    else subs[name := Keep(subs[name], keep)]
  }

  function Sweep(subs: map<string, seq<Id>>, live: set<Id>): map<string, seq<Id>> {
    map n | n in subs && Keep(subs[n], live) != [] :: Keep(subs[n], live)
  }

  function Add(t: Topics, a: Id, name: string): Topics {
    if a in Subscribers(t, name) then t else t.(subs := t.subs[name := Subscribers(t, name) + [a]])
  }

  predicate NoDup(l: seq<Id>) { forall i, j | 0 <= i < j < |l| :: l[i] != l[j] }

  /** No list has duplicates, none is stored empty, no topic is unnamed. */
  ghost predicate Tidy(subs: map<string, seq<Id>>) {
    forall n | n in subs :: n != "" && subs[n] != [] && NoDup(subs[n])
  }

  // ---- facts about Keep ----

  lemma {:induction false} KeepAppend(l: seq<Id>, m: seq<Id>, s: set<Id>)
    ensures Keep(l + m, s) == Keep(l, s) + Keep(m, s)
  {
    if l == [] {
      assert l + m == m;
    } else {
      KeepAppend(l[1..], m, s);
      assert (l + m)[1..] == l[1..] + m;
    }
  }

  lemma {:induction false} KeepIn(l: seq<Id>, s: set<Id>, x: Id)
    ensures x in Keep(l, s) <==> x in l && x in s
  {
    if l != [] {
      KeepIn(l[1..], s, x);
      assert l == [l[0]] + l[1..];
    }
  }

  lemma {:induction false} KeepNoDup(l: seq<Id>, s: set<Id>)
    requires NoDup(l)
    ensures NoDup(Keep(l, s))
  {
    if l != [] {
      KeepNoDup(l[1..], s);
      KeepIn(l[1..], s, l[0]);
      assert l[0] !in l[1..];
    }
  }

  lemma {:induction false} KeepKeep(l: seq<Id>, s: set<Id>, t: set<Id>)
    requires t <= s
    ensures Keep(Keep(l, s), t) == Keep(l, t)
  {
    if l != [] {
      KeepKeep(l[1..], s, t);
      if l[0] in s {
        assert Keep(l, s)[1..] == Keep(l[1..], s);
      }
    }
  }

  // ---- who is on the lists afterwards ----

  lemma AddExact(t: Topics, a: Id, name: string, n: string, x: Id)
    ensures x in Subscribers(Add(t, a, name), n) <==> x in Subscribers(t, n) || (n == name && x == a)
  {}

  lemma PruneExact(t: Topics, name: string, keep: set<Id>, n: string, x: Id)
    ensures x in Subscribers(t.(subs := Prune(t.subs, name, keep)), n) <==> x in Subscribers(t, n) && (n == name ==> x in keep)
  {
    KeepIn(Subscribers(t, name), keep, x);
  }

  lemma SweepExact(t: Topics, live: set<Id>, n: string)
    ensures Subscribers(t.(subs := Sweep(t.subs, live)), n) == Keep(Subscribers(t, n), live)
  {}

  /** Tidiness survives every way a handler changes the lists. */
  lemma AddTidy(t: Topics, a: Id, name: string)
    requires Tidy(t.subs) && name != ""
    ensures Tidy(Add(t, a, name).subs)
  {}

  lemma PruneTidy(subs: map<string, seq<Id>>, name: string, keep: set<Id>)
    requires Tidy(subs)
    ensures Tidy(Prune(subs, name, keep))
  {
    if name in subs {
      KeepNoDup(subs[name], keep);
    }
  }

  lemma SweepTidy(subs: map<string, seq<Id>>, live: set<Id>)
    requires Tidy(subs)
    ensures Tidy(Sweep(subs, live))
  {
    forall n | n in subs {
      KeepNoDup(subs[n], live);
    }
  }
}
