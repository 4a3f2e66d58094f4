/**
  The messaging stage's counters: a list of records found by symbol and account, with an index by instrument and
  account that remembers where a record was found. The memo never gives another record than the search would.
 */
module MessagingIndex {
  import opened OrderTypes
  import opened Pipeline
  import Rollback

  type Key = (string, AccountId)

  /** One record of the messaging policy: symbol and exchange as one name, the account, the counters. */
  datatype Info = Info(key: Key, counts: MsgCounts)

  /** The first record for a key, or the length. */
  function First(infos: seq<Info>, k: Key): (i: nat)
    ensures i <= |infos| && (i < |infos| ==> infos[i].key == k) && forall j :: 0 <= j < i ==> infos[j].key != k
  {
    if infos == [] || infos[0].key == k then 0 else 1 + First(infos[1..], k)
  }

  function CountsAt(infos: seq<Info>, k: Key): MsgCounts {
    if First(infos, k) < |infos| then infos[First(infos, k)].counts else MsgCounts(0, 0, 0)
  }

  /** The list of records stands for this map of counters. */
  ghost predicate Represents(infos: seq<Info>, m: map<Key, MsgCounts>) {
    forall k :: CountsAt(infos, k) == MsgAt(m, k)
  }

  function SetCounts(infos: seq<Info>, i: nat, c: MsgCounts): seq<Info>
    requires i < |infos|
  {
    infos[i := infos[i].(counts := c)]
  }

  /** Changing the counters of a record moves no record. */
  lemma {:induction false} FirstAfterSet(infos: seq<Info>, i: nat, c: MsgCounts, k: Key)
    requires i < |infos|
    ensures First(SetCounts(infos, i, c), k) == First(infos, k)
  {
    var s := SetCounts(infos, i, c);
    assert forall j :: 0 <= j < |s| ==> s[j].key == infos[j].key;
    var a, b := First(s, k), First(infos, k);
    assert a < |s| ==> infos[a].key == k;
    assert b < |s| ==> s[b].key == k;
  }

  /** A new record at the end is found only where none was. */
  lemma {:induction false} FirstAfterAppend(infos: seq<Info>, n: Info, k: Key)
    ensures First(infos + [n], k) == if First(infos, k) == |infos| && k != n.key then |infos| + 1 else First(infos, k)
  {
    var s := infos + [n];
    assert forall j :: 0 <= j < |infos| ==> s[j] == infos[j];
    assert s[|infos|] == n;
    var a, b := First(s, k), First(infos, k);
    assert b < |infos| ==> s[b].key == k;
    assert a < |infos| ==> infos[a].key == k;
  }

  /** Appending an empty record changes no counter. */
  lemma {:induction false} AppendKeepsCounts(infos: seq<Info>, n: Key, m: map<Key, MsgCounts>)
    requires Represents(infos, m)
    ensures Represents(infos + [Info(n, MsgCounts(0, 0, 0))], m)
  {
    var x := Info(n, MsgCounts(0, 0, 0));
    forall k ensures CountsAt(infos + [x], k) == MsgAt(m, k) {
      assert CountsAt(infos, k) == MsgAt(m, k);
      FirstAfterAppend(infos, x, k);
    }
  }

  /** Counting in the first record of a key is counting for that key and no other. */
  lemma {:induction false} CountRefines(infos: seq<Info>, key: Key, c: MsgCounts, m: map<Key, MsgCounts>)
    requires Represents(infos, m) && First(infos, key) < |infos|
    ensures Represents(SetCounts(infos, First(infos, key), c), m[key := c])
  {
    var i := First(infos, key);
    forall k ensures CountsAt(SetCounts(infos, i, c), k) == MsgAt(m[key := c], k) {
      assert CountsAt(infos, k) == MsgAt(m, k);
      FirstAfterSet(infos, i, c, k);
    }
  }

  class MessagingStage {
    const instruments: map<InstrumentId, string>
    var infos: seq<Info>
    var index: map<(InstrumentId, AccountId), nat>

    /** Every remembered place is where the search would end. */
    ghost predicate Valid()
      reads this
    {
      forall e :: e in index ==>
        e.0 in instruments && index[e] == First(infos, (instruments[e.0], e.1)) && index[e] < |infos|
    }

    constructor (instruments: map<InstrumentId, string>, infos: seq<Info>)
      ensures Valid() && this.instruments == instruments && this.infos == infos
    {
      this.instruments, this.infos, index := instruments, infos, map[];
    }

    method Search(key: Key) returns (i: nat)
      ensures i == First(infos, key)
    {
      i := 0;
      while i < |infos| && infos[i].key != key
        invariant i <= |infos| && forall j :: 0 <= j < i ==> infos[j].key != key
      {
        i := i + 1;
      }
    }

    /** The record of an instrument and account, created on first use; none for an unknown instrument. */
    method GetInfo(v: InstrumentId, w: AccountId) returns (r: Option<nat>)
      requires Valid()
      modifies this
      ensures Valid()
      ensures r.Some? <==> v in instruments
      ensures r.Some? ==> r.value == First(infos, (instruments[v], w)) < |infos|
      ensures infos == old(infos)
              || (v in instruments && First(old(infos), (instruments[v], w)) == |old(infos)|
                  && infos == old(infos) + [Info((instruments[v], w), MsgCounts(0, 0, 0))])
    {
      if (v, w) in index {
        return Some(index[(v, w)]);
      }
      if v !in instruments {
        return None;
      }
      var key := (instruments[v], w);
      var i := Search(key);
      if i == |infos| {
        var n := Info(key, MsgCounts(0, 0, 0));
        forall e | e in index ensures First(infos + [n], (instruments[e.0], e.1)) == index[e] {
          FirstAfterAppend(infos, n, (instruments[e.0], e.1));
        }
        FirstAfterAppend(infos, n, key);
        infos := infos + [n];
      }
      index := index[(v, w) := i];
      r := Some(i);
    }

    /** One message more (or one taken back): the list follows the map of counters of the order path. */
    method Count(ghost s: State, ref: OrderRef, o: Order, kind: MsgKind, n: int)
      requires Valid() && Known(s, ref) && o == s.orders[ref] && instruments == s.config.instruments
      requires Represents(infos, s.messages)
      modifies this
      ensures Valid() && Represents(infos, CountMsg(s, ref, kind, n).messages)
      ensures forall k :: var c := MsgAt(s.messages, k);
                var d := if o.terms.instrument in instruments && k == (instruments[o.terms.instrument], o.terms.account) then n else 0;
                CountsAt(infos, k)
                == MsgCounts(if kind == MsgNew then c.news + d else c.news, if kind == MsgMod then c.mods + d else c.mods,
                             if kind == MsgCxl then c.cxls + d else c.cxls)
    {
      hide Represents, First, CountsAt;
      AppendKeepsCountsHere(s, o.terms.instrument, o.terms.account);
      var r := GetInfo(o.terms.instrument, o.terms.account);
      if r.Some? {
        var i := r.value;
        var c := MsgDelta(infos[i].counts, kind, n);
        ghost var key := (instruments[o.terms.instrument], o.terms.account);
        FoundCounts(infos, key, s.messages);
        CountRefines(infos, key, c, s.messages);
        forall e | e in index ensures First(SetCounts(infos, i, c), (instruments[e.0], e.1)) == index[e] {
          FirstAfterSet(infos, i, c, (instruments[e.0], e.1));
        }
        infos := SetCounts(infos, i, c);
      }
      CountedFields(infos, s, ref, kind, n);
    }

    lemma AppendKeepsCountsHere(s: State, v: InstrumentId, w: AccountId)
      requires Represents(infos, s.messages)
      ensures v in instruments ==> Represents(infos + [Info((instruments[v], w), MsgCounts(0, 0, 0))], s.messages)
    {
      if v in instruments { AppendKeepsCounts(infos, (instruments[v], w), s.messages); }
    }
  }

  lemma {:induction false} FoundCounts(infos: seq<Info>, key: Key, m: map<Key, MsgCounts>)
    requires Represents(infos, m) && First(infos, key) < |infos|
    ensures infos[First(infos, key)].counts == MsgAt(m, key)
  {
    assert CountsAt(infos, key) == MsgAt(m, key);
  }

  /** The counters behind the list, field by field. */
  lemma {:induction false} CountedFields(infos: seq<Info>, s: State, ref: OrderRef, kind: MsgKind, n: int)
    requires Known(s, ref) && Represents(infos, CountMsg(s, ref, kind, n).messages)
    ensures forall k :: var t, c := s.orders[ref].terms, MsgAt(s.messages, k);
              var d := if t.instrument in s.config.instruments && k == (s.config.instruments[t.instrument], t.account) then n else 0;
              CountsAt(infos, k)
              == MsgCounts(if kind == MsgNew then c.news + d else c.news, if kind == MsgMod then c.mods + d else c.mods,
                           if kind == MsgCxl then c.cxls + d else c.cxls)
  {
    hide CountMsg, MsgAt, CountsAt;
    forall k ensures CountsAt(infos, k) == MsgAt(CountMsg(s, ref, kind, n).messages, k) {
    }
    forall k {:trigger CountsAt(infos, k)}
      ensures var t, c := s.orders[ref].terms, MsgAt(s.messages, k);
              var d := if t.instrument in s.config.instruments && k == (s.config.instruments[t.instrument], t.account) then n else 0;
              CountsAt(infos, k)
              == MsgCounts(if kind == MsgNew then c.news + d else c.news, if kind == MsgMod then c.mods + d else c.mods,
                           if kind == MsgCxl then c.cxls + d else c.cxls)
    {
      Rollback.CountAt(s, ref, kind, n, k);
    }
  }
}
