/**
 The tracker of in-flight messages: one ordered map per partition, keyed by offset.

 Its contract is stated over the flat view, all entries keyed by offset. `Valid` says why that view is
 sound although the key comparison is not lawful: each partition's map only ever holds one variant of
 offset, because an offset of the other variant compares equal to whatever is already there and is
 turned away as a duplicate.
 */
module Tracking {
  import opened Wrappers
  import opened Offsets
  import opened Sets

  const ID_HEADER := "X-Numaflow-Id"
  const POD_HASH_HEADER := "X-Numaflow-Pod-Hash"

  /** The tags of each response to a message, where it has any. */
  type Responses = seq<Option<seq<string>>>

  datatype CallbackInfo = CallbackInfo(id: string, podHash: string, fromVertex: string, responses: Responses)

  datatype Entry = Entry(callback: Option<CallbackInfo>, watermark: Option<int>, eventTime: int)

  datatype Message = Message(
    offset: Offset, headers: map<string, string>, previousVertex: Option<string>,
    watermark: Option<int>, eventTime: int)

  datatype InsertError = DuplicateInflight | MissingCallbackInfo

  type Partition = map<Offset, Entry>
  type Entries = map<nat, Partition>

  ghost predicate ValidPartition(p: nat, part: Partition) {
    && (forall o | o in part :: o.partition == p)
    && (forall a, b | a in part && b in part :: SameVariant(a, b))
  }

  ghost predicate Valid(es: Entries) {
    forall p | p in es :: ValidPartition(p, es[p])
  }

  predicate Tracked(es: Entries, o: Offset) {
    o.partition in es && o in es[o.partition]
  }

  ghost function Flat(es: Entries): (f: map<Offset, Entry>)
    ensures forall o :: o in f <==> Tracked(es, o)
    ensures forall o | o in f && Tracked(es, o) :: f[o] == es[o.partition][o]
  {
    var keys := set p, o | p in es && o in es[p] :: o;
    map o | o in keys && Tracked(es, o) :: es[o.partition][o]
  }

  /** `contains_key`: the ordered map finds a key that compares equal. */
  predicate Contains(part: Partition, o: Offset) {
    exists k | k in part :: Cmp(k, o) == Equal
  }

  function CallbackOf(m: Message): Option<CallbackInfo> {
    if ID_HEADER in m.headers && POD_HASH_HEADER in m.headers && m.previousVertex.Some? then
      Some(CallbackInfo(m.headers[ID_HEADER], m.headers[POD_HASH_HEADER], m.previousVertex.value, [None]))
    else None
  }

  function NewEntry(serving: bool, m: Message): Entry {
    Entry(if serving then CallbackOf(m) else None, m.watermark, m.eventTime)
  }

  function HandedOver(serving: bool, e: Entry): seq<CallbackInfo> {
    if serving && e.callback.Some? then [e.callback.value] else []
  }

  /** The message names its request, the pod to answer and the vertex it came from. */
  predicate NamesCallback(m: Message) {
    ID_HEADER in m.headers && POD_HASH_HEADER in m.headers && m.previousVertex.Some?
  }

  /** The callbacks due for a message with these responses once it is done. */
  function Due(serving: bool, m: Message, rs: Responses): seq<CallbackInfo>
    requires serving ==> NamesCallback(m)
  {
    if serving
    then [CallbackInfo(m.headers[ID_HEADER], m.headers[POD_HASH_HEADER], m.previousVertex.value, rs)]
    else []
  }

  /** The entry of one in-flight message. */
  ghost predicate Stored(serving: bool, e: Entry, o: Offset, m: Message, rs: Responses) {
    && m.offset == o && e.watermark == m.watermark && e.eventTime == m.eventTime
    && (serving ==> NamesCallback(m))
    && HandedOver(serving, e) == Due(serving, m, rs)
    && (!serving ==> e.callback.None?)
  }

  /** The entries are those of exactly the in-flight messages, with the responses to them. */
  ghost predicate Stores(serving: bool, es: map<Offset, Entry>, inflight: map<Offset, Message>,
                         responses: map<Offset, Responses>) {
    && es.Keys == inflight.Keys == responses.Keys
    && forall o | o in es :: Stored(serving, es[o], o, inflight[o], responses[o])
  }

  lemma NewEntryStored(serving: bool, m: Message)
    ensures CallbackOf(m).Some? <==> NamesCallback(m)
    ensures !serving || NamesCallback(m) ==> Stored(serving, NewEntry(serving, m), m.offset, m, [None])
  {}

  /** The headers that name a request and the pod to answer. */
  lemma CallbackHeaders(m: Message, rs: Responses)
    ensures NamesCallback(m) <==>
            "X-Numaflow-Id" in m.headers && "X-Numaflow-Pod-Hash" in m.headers && m.previousVertex.Some?
    ensures NamesCallback(m) ==>
              Due(true, m, rs) == [CallbackInfo(m.headers["X-Numaflow-Id"], m.headers["X-Numaflow-Pod-Hash"],
                                                m.previousVertex.value, rs)]
    ensures !NamesCallback(m) || Due(false, m, rs) == []
  {}

  /** No two tracked offsets can be confused by the comparison. */
  lemma TrackedSeparated(es: Entries, a: Offset, b: Offset)
    requires Valid(es)
    requires a in Flat(es) && b in Flat(es) && Clash(a, b)
    ensures a == b
  {
    CmpLaws(a, b, b);
  }

  /** Some tracked offset compares equal to `o`. */
  ghost predicate Clashes<E>(es: map<Offset, E>, o: Offset) {
    exists k | k in es :: Clash(k, o)
  }

  lemma ContainsExactly(es: Entries, o: Offset)
    requires Valid(es)
    ensures (o.partition in es && Contains(es[o.partition], o)) <==> Clashes(Flat(es), o)
    ensures o in Flat(es) ==> Clashes(Flat(es), o)
  {
    if o.partition in es {
      forall k | k in es[o.partition] && Cmp(k, o) == Equal ensures k in Flat(es) && Clash(k, o) {}
    }
    CmpLaws(o, o, o);
  }

  function PartitionOf(es: Entries, p: nat): Partition {
    if p in es then es[p] else map[]
  }

  lemma SameClashes<E, F>(a: map<Offset, E>, b: map<Offset, F>, o: Offset)
    requires a.Keys == b.Keys
    ensures Clashes(a, o) <==> Clashes(b, o)
  {
    assert forall k :: k in a <==> k in b;
  }

  lemma SameKeys<E, F>(a: map<Offset, E>, b: map<Offset, F>)
    requires a.Keys == b.Keys
    ensures forall k :: k in a <==> k in b
  {
    assert forall k :: k in a <==> k in a.Keys;
  }

  lemma ValidMeansOneVariant(es: Entries)
    requires Valid(es)
    ensures OneVariantEach(Flat(es))
  {}

  lemma KeysOf(serving: bool, es: map<Offset, Entry>, inflight: map<Offset, Message>,
               responses: map<Offset, Responses>)
    requires Stores(serving, es, inflight, responses)
    ensures es.Keys == inflight.Keys == responses.Keys
    ensures serving ==> forall o | o in inflight :: NamesCallback(inflight[o])
  {
    assert forall o :: o in es <==> o in inflight;
  }

  lemma StoresMore(serving: bool, es: map<Offset, Entry>, inflight: map<Offset, Message>,
                   responses: map<Offset, Responses>, m: Message)
    requires Stores(serving, es, inflight, responses) && (!serving || NamesCallback(m))
    ensures Stores(serving, es[m.offset := NewEntry(serving, m)], inflight[m.offset := m],
                   responses[m.offset := [None]])
  {
    NewEntryStored(serving, m);
  }

  lemma NothingThere(o: Offset)
    ensures !Contains(map[], o)
  {}

  /** The messages in flight, the responses to them, and the callbacks handed over so far. */
  datatype InFlight = InFlight(messages: map<Offset, Message>, responses: map<Offset, Responses>,
                               callbacks: seq<CallbackInfo>)

  /** The message at `k` was taken out for `o`, and its callback handed over with the responses to it. */
  ghost predicate TookOut(serving: bool, o: Offset, k: Offset, a: InFlight, b: InFlight) {
    && k in a.messages && k in a.responses && Clash(k, o) && (o in a.messages ==> k == o)
    && b.messages == a.messages - {k} && b.responses == a.responses - {k}
    && (serving ==> NamesCallback(a.messages[k]))
    && b.callbacks == a.callbacks + Due(serving, a.messages[k], a.responses[k])
  }

  lemma TakeOut(serving: bool, es: map<Offset, Entry>, a: InFlight, o: Offset, k: Offset)
    requires Stores(serving, es, a.messages, a.responses) && k in es && Clash(k, o) && (o in es ==> k == o)
    ensures Stores(serving, es - {k}, a.messages - {k}, a.responses - {k})
    ensures TookOut(serving, o, k, a, InFlight(a.messages - {k}, a.responses - {k},
                                               a.callbacks + HandedOver(serving, es[k])))
  {
    assert k in es.Keys;
    SameKeys(es, a.messages);
  }

  /** The entry with other responses. */
  function Answered(e: Entry, rs: Responses): Entry {
    if e.callback.Some? then e.(callback := Some(e.callback.value.(responses := rs))) else e
  }

  lemma StoresAnswered(es: map<Offset, Entry>, inflight: map<Offset, Message>, responses: map<Offset, Responses>,
                       k: Offset, rs: Responses)
    requires Stores(true, es, inflight, responses) && k in es
    ensures es[k].callback.Some? && k in responses && es[k].callback.value.responses == responses[k]
    ensures Stores(true, es[k := Answered(es[k], rs)], inflight, responses[k := rs])
  {
    assert Stored(true, es[k], k, inflight[k], responses[k]);
  }

  /** Rewriting the entry of a tracked offset. */
  lemma Rewriting(es: Entries, k: Offset, e: Entry)
    requires Valid(es) && Tracked(es, k)
    ensures var es' := es[k.partition := es[k.partition][k := e]]; Valid(es') && Flat(es') == Flat(es)[k := e]
  {
    var es' := es[k.partition := es[k.partition][k := e]];
    assert PartitionOf(es, k.partition) == es[k.partition];
    FlatInsert(es, k, e);
    assert ValidPartition(k.partition, es[k.partition]);
    assert ValidPartition(k.partition, es'[k.partition]);
  }

  /** What may be rewritten for `o`: its own responses when tracked, otherwise those the search runs into. */
  ghost predicate Rewritten(before: map<Offset, Responses>, o: Offset, after: map<Offset, Responses>,
                            f: Responses -> Responses) {
    if Clashes(before, o)
    then exists k | k in before && Clash(k, o) :: after == before[k := f(before[k])]
    else after == before
  }

  lemma ClashRewrites(before: map<Offset, Responses>, o: Offset, k: Offset, f: Responses -> Responses)
    requires k in before && Clash(k, o)
    ensures Rewritten(before, o, before[k := f(before[k])], f)
  {}

  lemma NothingRewritten(before: map<Offset, Responses>, o: Offset, f: Responses -> Responses)
    requires !Clashes(before, o)
    ensures Rewritten(before, o, before, f)
  {}

  lemma InsertValid(es: Entries, o: Offset, e: Entry)
    requires Valid(es) && !Contains(PartitionOf(es, o.partition), o)
    ensures Valid(es[o.partition := PartitionOf(es, o.partition)[o := e]])
  {}

  lemma FlatInsert(es: Entries, o: Offset, e: Entry)
    ensures Flat(es[o.partition := PartitionOf(es, o.partition)[o := e]]) == Flat(es)[o := e]
  {
    var es' := es[o.partition := PartitionOf(es, o.partition)[o := e]];
    forall k ensures Tracked(es', k) <==> Tracked(es, k) || k == o {}
    assert Flat(es').Keys == Flat(es)[o := e].Keys;
    forall k | k in Flat(es') ensures Flat(es')[k] == Flat(es)[o := e][k] {}
  }

  lemma FlatRemove(es: Entries, k: Offset)
    requires Tracked(es, k)
    ensures Flat(es[k.partition := es[k.partition] - {k}]) == Flat(es) - {k}
  {
    var es' := es[k.partition := es[k.partition] - {k}];
    forall o ensures Tracked(es', o) <==> Tracked(es, o) && o != k {}
    assert Flat(es').Keys == (Flat(es) - {k}).Keys;
    forall o | o in Flat(es') ensures Flat(es')[o] == (Flat(es) - {k})[o] {}
  }

  /** What may be removed for `o`: itself when tracked, otherwise whatever the search runs into. */
  ghost predicate Removed<E>(before: map<Offset, E>, o: Offset, after: map<Offset, E>) {
    if Clashes(before, o)
    then exists k | k in before && Clash(k, o) :: after == before - {k}
    else after == before
  }

  lemma RemoveKeeps(es: Entries, o: Offset, k: Offset)
    requires Valid(es) && o.partition in es && k in es[o.partition] && Cmp(k, o) == Equal
    ensures k.partition == o.partition
    ensures var es' := es[o.partition := es[o.partition] - {k}];
            && Valid(es')
            && Flat(es') == Flat(es) - {k}
            && Removed(Flat(es), o, Flat(es'))
    ensures Tracked(es, o) ==> k == o
    ensures Clashes(Flat(es), o)
  {
    assert ValidPartition(o.partition, es[o.partition]);
    assert ValidPartition(o.partition, es[o.partition] - {k});
    FlatRemove(es, k);
    assert k in Flat(es) && Clash(k, o);
    if Tracked(es, o) {
      TrackedSeparated(es, k, o);
    }
  }

  class Tracker {
    var entries: Entries
    var processed: nat
    var callbacks: seq<CallbackInfo>
    const serving: bool
    ghost var inflight: map<Offset, Message>      // the messages inserted and not yet deleted
    ghost var responses: map<Offset, Responses>   // the responses to them so far

    ghost predicate Consistent()
      reads this
    {
      Valid(entries) && Stores(serving, Flat(entries), inflight, responses)
    }

    ghost function Account(): InFlight
      reads this
    {
      InFlight(inflight, responses, callbacks)
    }

    constructor (serving: bool)
      ensures Consistent() && inflight == map[] && responses == map[] && callbacks == [] && processed == 0
      ensures this.serving == serving
    {
      entries, processed, callbacks := map[], 0, [];
      this.serving := serving;
      inflight, responses := map[], map[];
    }

    /** A message is turned away if its callback information is missing, or if its offset clashes with a
        tracked one; otherwise it, and nothing else, is added. */
    method Insert(m: Message) returns (r: Result<(), InsertError>)
      requires Consistent()
      modifies this`entries, this`inflight, this`responses
      ensures Consistent()
      ensures r == Err(MissingCallbackInfo) <==> serving && !NamesCallback(m)
      ensures r == Err(DuplicateInflight) <==> !(serving && !NamesCallback(m)) && Clashes(old(inflight), m.offset)
      ensures r.Ok? <==> (serving ==> NamesCallback(m)) && !Clashes(old(inflight), m.offset)
      ensures r.Err? ==> entries == old(entries) && inflight == old(inflight) && responses == old(responses)
      ensures r.Ok? ==> inflight == old(inflight)[m.offset := m] && responses == old(responses)[m.offset := [None]]
    {
      hide Flat, Stores, Clashes, Valid, Stored, Contains, CallbackOf, NamesCallback;
      NewEntryStored(serving, m);
      if serving && CallbackOf(m).None? {
        return Err(MissingCallbackInfo);
      }
      var p := m.offset.partition;
      var part := PartitionOf(entries, p);
      ContainsExactly(entries, m.offset);
      NothingThere(m.offset);
      KeysOf(serving, Flat(entries), inflight, responses);
      SameClashes(Flat(entries), inflight, m.offset);
      if Contains(part, m.offset) {
        return Err(DuplicateInflight);
      }
      InsertValid(entries, m.offset, NewEntry(serving, m));
      FlatInsert(entries, m.offset, NewEntry(serving, m));
      StoresMore(serving, Flat(entries), inflight, responses, m);
      entries := entries[p := part[m.offset := NewEntry(serving, m)]];
      inflight, responses := inflight[m.offset := m], responses[m.offset := [None]];
      r := Ok(());
    }

    /** Removes the offset's entry, or whatever the search runs into, counts it, and hands its message's callback over
        with the responses to it. */
    method Delete(o: Offset)
      requires Consistent()
      modifies this
      ensures Consistent()
      ensures processed == old(processed) + if Clashes(old(inflight), o) then 1 else 0
      ensures !Clashes(old(inflight), o) ==> Account() == old(Account())
      ensures Clashes(old(inflight), o) ==> exists k :: TookOut(serving, o, k, old(Account()), Account())
    {
      hide Flat, Stores, Clashes, Valid, HandedOver, Clash, TookOut;
      ghost var before := Flat(entries);
      KeysOf(serving, before, inflight, responses);
      SameKeys(before, inflight);
      SameClashes(before, inflight, o);
      var removed, k := Remove(o);
      if removed.Some? {
        TakeOut(serving, before, Account(), o, k);
        processed := processed + 1;
        callbacks := callbacks + HandedOver(serving, removed.value);
        inflight, responses := inflight - {k}, responses - {k};
        assert TookOut(serving, o, k, old(Account()), Account());
      }
    }

    /** Takes out the entry the search runs into, under its key `k`. */
    method Remove(o: Offset) returns (e: Option<Entry>, ghost k: Offset)
      requires Valid(entries)
      modifies this`entries
      ensures Valid(entries)
      ensures e.Some? <==> Clashes(old(Flat(entries)), o)
      ensures e.None? ==> entries == old(entries)
      ensures e.Some? ==>
                && k in old(Flat(entries)) && Clash(k, o) && e == Some(old(Flat(entries))[k])
                && Flat(entries) == old(Flat(entries)) - {k}
      ensures o in old(Flat(entries)) ==> k == o
    {
      var p := o.partition;
      ContainsExactly(entries, o);
      k := o;
      if p !in entries || !Contains(entries[p], o) {
        return None, o;
      }
      var found :| found in entries[p] && Cmp(found, o) == Equal;
      RemoveKeeps(entries, o, found);
      e, k := Some(entries[p][found]), found;
      entries := entries[p := entries[p] - {found}];
    }

    /** The key the ordered map's search runs into. */
    method Find(o: Offset) returns (k: Option<Offset>)
      requires Consistent()
      ensures k.Some? <==> Clashes(responses, o)
      ensures k.Some? ==> k.value in responses && Clash(k.value, o) && Tracked(entries, k.value)
      ensures k.Some? && o in inflight ==> k.value == o
    {
      ContainsExactly(entries, o);
      KeysOf(serving, Flat(entries), inflight, responses);
      SameClashes(Flat(entries), responses, o);
      if o.partition !in entries || !Contains(entries[o.partition], o) {
        return None;
      }
      var found :| found in entries[o.partition] && Cmp(found, o) == Equal;
      RemoveKeeps(entries, o, found);
      assert found in Flat(entries);
      k := Some(found);
    }

    /** Gives the tracked key `k` other responses. */
    method Rewrite(k: Offset, rs: Responses)
      requires Consistent() && serving && Tracked(entries, k)
      modifies this`entries, this`responses
      ensures Consistent() && k in old(responses) && responses == old(responses)[k := rs]
    {
      hide Flat, Stores, Valid, Answered;
      InFlat(entries, k);
      var e := Answered(entries[k.partition][k], rs);
      Rewriting(entries, k, e);
      StoresAnswered(Flat(entries), inflight, responses, k, rs);
      entries := entries[k.partition := entries[k.partition][k := e]];
      responses := responses[k := rs];
    }

    /** `serving_update`: the responses to a message become the given ones. */
    method ServingUpdate(o: Offset, rs: Responses)
      requires Consistent()
      modifies this`entries, this`responses
      ensures Consistent()
      ensures !serving ==> entries == old(entries) && responses == old(responses)
      ensures serving ==> Rewritten(old(responses), o, responses, (_: Responses) => rs)
      ensures serving && o in inflight ==> responses == old(responses)[o := rs]
    {
      hide Flat, Stores, Valid, Rewritten, Clashes;
      if !serving {
        return;
      }
      ghost var f := (_: Responses) => rs;
      var k := Find(o);
      InFlightFound(serving, Flat(entries), inflight, responses, o);
      match k
      case None => NothingRewritten(responses, o, f);
      case Some(key) =>
        ClashRewrites(responses, o, key, f);
        Rewrite(key, rs);
    }

    /** `serving_append`: one more response. */
    method ServingAppend(o: Offset, tags: Option<seq<string>>)
      requires Consistent()
      modifies this`entries, this`responses
      ensures Consistent()
      ensures !serving ==> entries == old(entries) && responses == old(responses)
      ensures serving ==> Rewritten(old(responses), o, responses, (rs: Responses) => rs + [tags])
      ensures serving && o in inflight ==>
                o in old(responses) && responses == old(responses)[o := old(responses)[o] + [tags]]
    {
      hide Flat, Stores, Valid, Rewritten, Clashes;
      if !serving {
        return;
      }
      ghost var f := (rs: Responses) => rs + [tags];
      var k := Find(o);
      InFlightFound(serving, Flat(entries), inflight, responses, o);
      match k
      case None => NothingRewritten(responses, o, f);
      case Some(key) =>
        ClashRewrites(responses, o, key, f);
        InFlat(entries, key);
        StoresAnswered(Flat(entries), inflight, responses, key, []);
        var e := entries[key.partition][key];
        Rewrite(key, e.callback.value.responses + [tags]);
    }

    /** `serving_refresh`: the entry is taken out, its responses are forgotten, and it is put back under the given
        offset. For a tracked offset that is all. For one that merely compares equal to a tracked one, the entry the
        search ran into ends up elsewhere, as `PutBack` says, and its message is no longer tracked. */
    method ServingRefresh(o: Offset)
      requires Consistent()
      modifies this`entries, this`responses
      ensures !serving || !Clashes(inflight, o) ==> entries == old(entries) && responses == old(responses)
      ensures serving && o in inflight ==> responses == old(responses)[o := []]
      ensures Consistent() <==> !serving || o in inflight || !Clashes(inflight, o)
      ensures serving && o !in inflight && Clashes(inflight, o) ==>
                && responses == old(responses)
                && exists k, at :: PutBack(old(entries), o, k, at, entries)
    {
      hide Flat, Stores, Valid, Clashes, Stored, Answered, Contains, PutBack;
      InFlightFound(serving, Flat(entries), inflight, responses, o);
      if !serving {
        return;
      }
      var k := Find(o);
      if k.Some? {
        var p, key := o.partition, k.value;
        var e := Answered(entries[p][key], []);
        var part, at := entries[p] - {key}, o;
        if Contains(part, o) {
          at := Meets(part, o);
        }
        if key == o {
          PutBackSame(entries, o, e);
          Rewriting(entries, o, e);
          InFlat(entries, o);
          StoresAnswered(Flat(entries), inflight, responses, o, []);
          responses := responses[o := []];
        } else {
          PutBackMoves(entries, o, key, at);
          NotStored(serving, entries[p := part[at := e]], inflight, responses, key);
        }
        entries := entries[p := part[at := e]];
      }
    }

    /** Where an insertion ends up: at an equal key, which then stays as it is. */
    method Meets(part: Partition, o: Offset) returns (at: Offset)
      requires Contains(part, o)
      ensures at in part && Cmp(at, o) == Equal
    {
      at :| at in part && Cmp(at, o) == Equal;
    }

    /** `lowest_watermark`: the minimum over the in-flight messages if their watermarks follow offset order. */
    method LowestWatermark() returns (w: int)
      requires Consistent()
      ensures IsLowest(Flat(entries), w)
      ensures Ascending(inflight) ==> IsMinimum(inflight, w)
    {
      hide Ascending, IsMinimum, IsLowest, Stores, Flat, Valid, OneVariantEach;
      w := LowestOfFirsts();
      ValidMeansOneVariant(entries);
      if Ascending(inflight) {
        LowestIsMinimum(serving, Flat(entries), inflight, responses, w);
      }
    }

    /** Only the first entry of each partition is looked at. */
    method LowestOfFirsts() returns (w: int)
      requires Valid(entries)
      ensures IsLowest(Flat(entries), w)
    {
      hide Flat, Covers, IsLowest, Valid, First;
      ghost var flat := Flat(entries);
      var best: Option<int> := None;
      var todo := entries.Keys;
      CoversStart(entries);
      while todo != {}
        invariant todo <= entries.Keys && Covers(flat, todo, best)
      {
        var p :| p in todo;
        assert (todo - {p}) + {p} == todo;
        todo := todo - {p};
        if entries[p] != map[] {
          var o := FirstKey(p);
          var mark := entries[p][o].watermark;
          InFlat(entries, o);
          CoversStep(flat, todo, best, o);
          if mark.Some? && (best.None? || mark.value < best.value) {
            best := mark;
          }
        } else {
          CoversEmpty(entries, todo, best, p);
        }
      }
      CoversEnd(flat, best);
      w := if best.Some? then best.value else -1;
    }

    /** The least key of one partition's ordered map. */
    method FirstKey(p: nat) returns (first: Offset)
      requires Valid(entries) && p in entries && entries[p] != map[]
      ensures First(Flat(entries), first) && first.partition == p && first in entries[p]
    {
      var part := entries[p];
      assert part.Keys != {};
      first :| first in part;
      var todo := part.Keys - {first};
      while todo != {}
        invariant first in part && todo <= part.Keys && first !in todo
        invariant forall k | k in part && k !in todo :: k == first || Cmp(first, k) == Less
      {
        var k :| k in todo;
        todo := todo - {k};
        CmpLaws(k, first, k);
        if Cmp(k, first) == Less {
          forall x | x in part && x !in todo && x != k ensures Cmp(k, x) == Less { CmpLaws(k, first, x); }
          first := k;
        } else {
          CmpLaws(first, k, first);
        }
      }
    }
  }

  lemma InFlightFound(serving: bool, es: map<Offset, Entry>, inflight: map<Offset, Message>,
                      responses: map<Offset, Responses>, o: Offset)
    requires Stores(serving, es, inflight, responses)
    ensures o in inflight ==> Clashes(responses, o)
    ensures forall k :: k in inflight <==> k in responses
    ensures Clashes(inflight, o) <==> Clashes(responses, o)
  {
    CmpLaws(o, o, o);
    SameClashes(inflight, responses, o);
    assert forall k :: k in inflight <==> k in responses;
  }

  /** A tracked offset is put back where it was: no other key of its partition compares equal. */
  lemma PutBackSame(es: Entries, o: Offset, e: Entry)
    requires Valid(es) && Tracked(es, o)
    ensures var part := es[o.partition] - {o}; !Contains(part, o) && part[o := e] == es[o.partition][o := e]
  {
    var part := es[o.partition];
    forall k | k in part - {o} ensures Cmp(k, o) != Equal {
      assert ValidPartition(o.partition, part);
      CmpLaws(k, o, o);
    }
  }

  /** Refreshing an offset that is not tracked itself: the entry of `k`, its responses forgotten, now stands at `at`.
      That is `o`, unless another tracked offset compares equal to it; then it is that one, whose own entry is lost. */
  ghost predicate PutBack(es: Entries, o: Offset, k: Offset, at: Offset, es': Entries) {
    && k in Flat(es) && Clash(k, o) && k != at
    && (if Clashes(Flat(es) - {k}, o) then at in Flat(es) && Clash(at, o) else at == o)
    && Valid(es') && Flat(es') == (Flat(es) - {k})[at := Answered(Flat(es)[k], [])]
  }

  lemma PutBackMoves(es: Entries, o: Offset, k: Offset, at: Offset)
    requires Valid(es) && Tracked(es, k) && Clash(k, o) && k != o
    requires var part := es[o.partition] - {k};
             if Contains(part, o) then at in part && Cmp(at, o) == Equal else at == o
    ensures var part := es[o.partition] - {k};
            PutBack(es, o, k, at, es[o.partition := part[at := Answered(es[o.partition][k], [])]])
  {
    hide Flat, Valid, Contains, Clashes, Answered;
    var p, e := o.partition, Answered(es[o.partition][k], []);
    var rest := es[p := es[p] - {k}];
    InFlat(es, k);
    RemoveKeeps(es, o, k);
    ContainsExactly(rest, o);
    if Contains(rest[p], o) {
      PartitionKeys(es, at);
      InFlat(rest, at);
      Rewriting(rest, at, e);
    } else {
      InsertValid(rest, o, e);
      FlatInsert(rest, o, e);
    }
    assert rest[p := rest[p][at := e]] == es[p := (es[p] - {k})[at := e]];
  }

  lemma PartitionKeys(es: Entries, o: Offset)
    requires Valid(es)
    ensures forall p | p in es && o in es[p] :: p == o.partition
  {}

  /** What such a refresh does to the messages in flight: one of them is tracked no more, another one's entry is
      replaced by that of the lost one if another offset compares equal too, and all others are tracked as before. */
  lemma RefreshLoses(es: Entries, inflight: map<Offset, Message>, responses: map<Offset, Responses>, o: Offset,
                     k: Offset, at: Offset, es': Entries)
    requires Stores(true, Flat(es), inflight, responses) && PutBack(es, o, k, at, es')
    ensures k in inflight && k !in Flat(es') && at in Flat(es')
    ensures if Clashes(inflight - {k}, o) then at in inflight && at != k else at == o
    ensures NamesCallback(inflight[k]) && HandedOver(true, Flat(es')[at]) == Due(true, inflight[k], [])
    ensures forall q | q in inflight && q != k && q != at :: q in Flat(es') && Flat(es')[q] == Flat(es)[q]
  {
    hide Flat, Stores, Clashes, Answered, HandedOver, NamesCallback, Due, Valid, Clash;
    var flat := Flat(es);
    KeysOf(true, flat, inflight, responses);
    AnsweredDue(flat, inflight, responses, k);
    SameKeys(flat, inflight);
    SameClashes(flat - {k}, inflight - {k}, o);
  }

  lemma AnsweredDue(es: map<Offset, Entry>, inflight: map<Offset, Message>, responses: map<Offset, Responses>,
                    k: Offset)
    requires Stores(true, es, inflight, responses) && k in es
    ensures k in inflight && NamesCallback(inflight[k])
    ensures HandedOver(true, Answered(es[k], [])) == Due(true, inflight[k], [])
  {
    assert Stored(true, es[k], k, inflight[k], responses[k]);
  }

  lemma RefreshOfTwo(es: Entries, a: Message, b: Message, responses: map<Offset, Responses>, o: Offset, k: Offset,
                     at: Offset, es': Entries)
    requires a.offset != b.offset && Clash(a.offset, o) && Clash(b.offset, o) && PutBack(es, o, k, at, es')
    requires Stores(true, Flat(es), map[a.offset := a, b.offset := b], responses)
    ensures {k, at} == {a.offset, b.offset} && k !in Flat(es') && at in Flat(es')
    ensures var lost := if k == a.offset then a else b;
            NamesCallback(lost) && HandedOver(true, Flat(es')[at]) == Due(true, lost, [])
  {
    hide Stores, Flat, PutBack, Valid, HandedOver, Due, NamesCallback;
    var inflight := map[a.offset := a, b.offset := b];
    RefreshLoses(es, inflight, responses, o, k, at, es');
    assert Clashes(inflight - {k}, o) by {
      var other := if k == a.offset then b.offset else a.offset;
      assert other in inflight - {k} && Clash(other, o);
    }
  }

  function Request(id: string, seqNo: int): Message {
    Message(IntOffset(seqNo, 0), map[ID_HEADER := id, POD_HASH_HEADER := "pod"], Some("in"), None, 0)
  }

  /** It happens: the empty string offset is refreshed while one message with an integer offset is in flight. */
  method RefreshUntracks() returns (t: Tracker)
    ensures t.serving && t.inflight == map[IntOffset(0, 0) := Request("a", 0)]
    ensures !Tracked(t.entries, IntOffset(0, 0)) && Tracked(t.entries, StringOffset([], 0))
  {
    hide Stores, Flat, PutBack, Valid;
    var o, a := StringOffset([], 0), Request("a", 0);
    t := new Tracker(true);
    var r := t.Insert(a);
    ghost var es, responses := t.entries, t.responses;
    assert Clash(a.offset, o);
    t.ServingRefresh(o);
    ghost var k, at :| PutBack(es, o, k, at, t.entries);
    RefreshLoses(es, t.inflight, responses, o, k, at, t.entries);
  }

  method TwoInFlight(a: Message, b: Message) returns (t: Tracker)
    requires NamesCallback(a) && NamesCallback(b) && !Clash(a.offset, b.offset)
    ensures fresh(t) && t.serving && t.Consistent() && t.inflight == map[a.offset := a, b.offset := b]
  {
    hide Stores, Flat, Valid, NamesCallback;
    t := new Tracker(true);
    var r := t.Insert(a);
    r := t.Insert(b);
  }

  /** With two messages in flight one of them is not tracked any more, and deleting the other would hand over the
      callback of the lost one. */
  method RefreshMisplaces() returns (t: Tracker, lost: Message, kept: Message)
    ensures (lost == Request("a", 0) && kept == Request("b", 1)) || (lost == Request("b", 1) && kept == Request("a", 0))
    ensures t.serving && t.inflight == map[lost.offset := lost, kept.offset := kept]
    ensures !Tracked(t.entries, lost.offset) && Tracked(t.entries, kept.offset)
    ensures HandedOver(true, Flat(t.entries)[kept.offset]) == Due(true, lost, [])
  {
    hide Stores, Flat, PutBack, Valid, HandedOver, Due;
    var o, a, b := StringOffset([], 0), Request("a", 0), Request("b", 1);
    t := TwoInFlight(a, b);
    ghost var es, responses := t.entries, t.responses;
    assert Clash(a.offset, o);
    t.ServingRefresh(o);
    ghost var k, at :| PutBack(es, o, k, at, t.entries);
    RefreshOfTwo(es, a, b, responses, o, k, at, t.entries);
    if Tracked(t.entries, a.offset) {
      lost, kept := b, a;
    } else {
      lost, kept := a, b;
    }
  }

  lemma NotStored(serving: bool, es: Entries, inflight: map<Offset, Message>, responses: map<Offset, Responses>,
                  k: Offset)
    requires k in responses && !Tracked(es, k)
    ensures !Stores(serving, Flat(es), inflight, responses)
  {
    assert k !in Flat(es);
    assert k !in Flat(es).Keys && k in responses.Keys;
  }

  /** `o` is the first key of its partition. */
  ghost predicate First(es: map<Offset, Entry>, o: Offset) {
    && o in es
    && forall k | k in es && k.partition == o.partition && k != o :: Cmp(o, k) == Less
  }

  predicate NotBelow(mark: Option<int>, w: int) { mark.None? || w <= mark.value }

  /** The least watermark among the partitions' first entries, or -1 if none of those has one. */
  ghost predicate IsLowest(es: map<Offset, Entry>, w: int) {
    if forall o | First(es, o) :: es[o].watermark.None?
    then w == -1
    else
      && (exists o | First(es, o) :: es[o].watermark == Some(w))
      && (forall o | First(es, o) :: NotBelow(es[o].watermark, w))
  }

  /** One tracker operation on the in-flight messages, as `Insert` and `Delete` above perform it. */
  ghost predicate Operation(a: map<Offset, Message>, b: map<Offset, Message>) {
    || b == a
    || (exists o :: Removed(a, o, b))
    || (exists m :: Inserted(a, m, b))
  }

  ghost predicate Inserted(a: map<Offset, Message>, m: Message, b: map<Offset, Message>) {
    !Clashes(a, m.offset) && b == a[m.offset := m]
  }

  ghost predicate OneVariantEach<E>(es: map<Offset, E>) {
    forall a, b | a in es && b in es && a.partition == b.partition :: SameVariant(a, b)
  }

  ghost predicate History(run: seq<map<Offset, Message>>) {
    && run != [] && run[0] == map[]
    && forall i | 0 <= i < |run| - 1 :: Operation(run[i], run[i + 1])
  }

  lemma OperationKeeps(a: map<Offset, Message>, b: map<Offset, Message>)
    requires Operation(a, b) && OneVariantEach(a)
    ensures OneVariantEach(b)
  {
    if m :| Inserted(a, m, b) {
      forall k | k in a && k.partition == m.offset.partition ensures SameVariant(k, m.offset) {
        CmpLaws(k, m.offset, m.offset);
      }
    }
  }

  /** After any history of inserts and deletes each partition holds one variant of offset. */
  lemma {:induction false} HistoryKeeps(run: seq<map<Offset, Message>>, n: nat)
    requires History(run) && n < |run|
    ensures OneVariantEach(run[n])
  {
    if n > 0 {
      HistoryKeeps(run, n - 1);
      OperationKeeps(run[n - 1], run[n]);
    }
  }

  /** Every non-empty set of keys of one partition has a first one. */
  lemma {:induction false} FirstExists(es: map<Offset, Entry>, o: Offset, above: set<Offset>)
    requires OneVariantEach(es) && o in es
    requires above == set k | k in es && k.partition == o.partition && Cmp(k, o) == Less
    ensures exists f | First(es, f) :: f.partition == o.partition && (f == o || Cmp(f, o) == Less)
    decreases |above|
  {
    if above == {} {
      forall k | k in es && k.partition == o.partition && k != o ensures Cmp(o, k) == Less {
        CmpLaws(o, k, o);
        assert k !in above;
      }
      assert First(es, o);
    } else {
      var k :| k in above;
      var below := set x | x in es && x.partition == k.partition && Cmp(x, k) == Less;
      forall x | x in below ensures x in above { CmpLaws(x, k, o); }
      CmpLaws(k, k, k);
      assert below <= above - {k};
      SubsetSize(below, above - {k});
      FirstExists(es, k, below);
      var f :| First(es, f) && f.partition == k.partition && (f == k || Cmp(f, k) == Less);
      CmpLaws(f, k, o);
    }
  }

  lemma FirstBefore(es: map<Offset, Entry>, o: Offset) returns (f: Offset)
    requires OneVariantEach(es) && o in es
    ensures First(es, f) && f in es && f.partition == o.partition && (f == o || Cmp(f, o) == Less)
  {
    FirstExists(es, o, set k | k in es && k.partition == o.partition && Cmp(k, o) == Less);
    f :| First(es, f) && f.partition == o.partition && (f == o || Cmp(f, o) == Less);
  }

  /** `best` is the least watermark among the first entries of the partitions not in `todo`. */
  ghost predicate Covers(es: map<Offset, Entry>, todo: set<nat>, best: Option<int>) {
    && (best.Some? ==> exists o | First(es, o) :: es[o].watermark == best)
    && forall o | First(es, o) && o.partition !in todo ::
         if best.None? then es[o].watermark.None? else NotBelow(es[o].watermark, best.value)
  }

  lemma CoversStart(es: Entries)
    requires Valid(es)
    ensures Covers(Flat(es), es.Keys, None)
  {}

  lemma CoversEmpty(es: Entries, todo: set<nat>, best: Option<int>, p: nat)
    requires Covers(Flat(es), todo + {p}, best) && p in es && es[p] == map[]
    ensures Covers(Flat(es), todo, best)
  {}

  /** One partition's first entry is looked at. */
  lemma CoversStep(es: map<Offset, Entry>, todo: set<nat>, best: Option<int>, o: Offset)
    requires Covers(es, todo + {o.partition}, best) && First(es, o)
    ensures var mark := es[o].watermark;
            Covers(es, todo, if mark.Some? && (best.None? || mark.value < best.value) then mark else best)
  {
    forall k | First(es, k) && k.partition == o.partition ensures k == o { CmpLaws(o, k, o); }
  }

  lemma CoversEnd(es: map<Offset, Entry>, best: Option<int>)
    requires Covers(es, {}, best)
    ensures IsLowest(es, if best.Some? then best.value else -1)
  {}

  lemma InFlat(es: Entries, o: Offset)
    requires o.partition in es && o in es[o.partition]
    ensures o in Flat(es) && Flat(es)[o] == es[o.partition][o]
  {}

  /** The in-flight messages all have watermarks, and these follow offset order in each partition. */
  ghost predicate Ascending(inflight: map<Offset, Message>) {
    && (forall o | o in inflight :: inflight[o].watermark.Some?)
    && forall a, b | a in inflight && b in inflight && a.partition == b.partition && Cmp(a, b) == Less ::
         inflight[a].watermark.value <= inflight[b].watermark.value
  }

  /** The least of the in-flight messages' watermarks, or -1 if there is none. */
  ghost predicate IsMinimum(inflight: map<Offset, Message>, w: int) {
    if inflight == map[]
    then w == -1
    else
      && (exists o | o in inflight :: inflight[o].watermark == Some(w))
      && (forall o | o in inflight :: inflight[o].watermark.Some? && w <= inflight[o].watermark.value)
  }

  /** If the watermarks of the in-flight messages follow offset order in each partition, the reported watermark, which
      comes from the partitions' first entries, is the minimum over all in-flight messages. */
  lemma LowestIsMinimum(serving: bool, es: map<Offset, Entry>, inflight: map<Offset, Message>,
                        responses: map<Offset, Responses>, w: int)
    requires OneVariantEach(es) && Stores(serving, es, inflight, responses) && Ascending(inflight) && IsLowest(es, w)
    ensures IsMinimum(inflight, w)
  {
    SameKeys(es, inflight);
    forall o | o in es ensures w <= inflight[o].watermark.value && exists f :: First(es, f) {
      hide First, Cmp;
      var f := FirstBefore(es, o);
      assert inflight[f].watermark.value <= inflight[o].watermark.value;
    }
    if inflight != map[] {
      assert inflight.Keys != {};
      var o :| o in inflight;
    }
  }
}
