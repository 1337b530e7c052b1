/**
 A map kept as a sorted vector and searched by bisection, under any strict weak order.  Keys
 that the order does not tell apart form one class with at most one entry; the entry keeps the
 key that was first inserted since the class was last absent and the value written last.
 */
module SoulFlatMap {
  import opened Options

  datatype Entry<K, V> = Entry(first: K, second: V)

  type Order<!K> = (K, K) -> bool

  // ----- strict weak orders -----

  predicate Equal<K>(less: Order<K>, a: K, b: K) {
    !less(a, b) && !less(b, a)
  }

  ghost predicate StrictWeakOrder<K(!new)>(less: Order<K>) {
    && (forall a :: !less(a, a))
    && (forall a, b, c :: less(a, b) && less(b, c) ==> less(a, c))
    && (forall a, b, c :: Equal(less, a, b) && Equal(less, b, c) ==> Equal(less, a, c))
  }

  lemma Reflexive<K(!new)>(less: Order<K>, a: K)
    requires StrictWeakOrder(less)
    ensures Equal(less, a, a)
  {
  }

  lemma Chain<K(!new)>(less: Order<K>, a: K, b: K, c: K)
    requires StrictWeakOrder(less)
    ensures less(a, b) && less(b, c) ==> less(a, c)
    ensures Equal(less, a, b) && Equal(less, b, c) ==> Equal(less, a, c)
  {
  }

  /** The order cannot tell members of a class apart. */
  lemma Substitute<K(!new)>(less: Order<K>, a: K, b: K, x: K)
    requires StrictWeakOrder(less) && Equal(less, a, b)
    ensures less(a, x) <==> less(b, x)
    ensures less(x, a) <==> less(x, b)
    ensures Equal(less, a, x) <==> Equal(less, b, x)
  {
    Chain(less, x, a, b);
    Chain(less, a, b, x);
    Chain(less, b, a, x);
    Chain(less, x, b, a);
    Chain(less, a, x, b);
    Chain(less, b, x, a);
  }

  // ----- the vector -----

  predicate Sorted<K, V>(less: Order<K>, s: seq<Entry<K, V>>) {
    forall i, j :: 0 <= i < j < |s| ==> less(s[i].first, s[j].first)
  }

  /** `p` separates the entries below `key` from the others. */
  predicate Splits<K, V>(less: Order<K>, s: seq<Entry<K, V>>, key: K, p: nat) {
    && p <= |s|
    && (forall i :: 0 <= i < p ==> less(s[i].first, key))
    && (forall i :: p <= i < |s| ==> !less(s[i].first, key))
  }

  function Position<K, V>(less: Order<K>, s: seq<Entry<K, V>>, key: K): (p: nat)
    ensures p <= |s|
  {
    if s == [] || !less(s[0].first, key) then 0 else 1 + Position(less, s[1..], key)
  }

  predicate HitAt<K, V>(less: Order<K>, s: seq<Entry<K, V>>, key: K, p: nat) {
    p < |s| && Equal(less, s[p].first, key)
  }

  /** The entry a search for `key` finds. */
  function Get<K, V>(less: Order<K>, s: seq<Entry<K, V>>, key: K): Option<Entry<K, V>> {
    var p := Position(less, s, key);
    if HitAt(less, s, key, p) then Some(s[p]) else None
  }

  lemma {:induction false} PositionSplits<K(!new), V>(less: Order<K>, s: seq<Entry<K, V>>, key: K)
    requires StrictWeakOrder(less) && Sorted(less, s)
    ensures Splits(less, s, key, Position(less, s, key))
  {
    hide StrictWeakOrder;
    if s != [] {
      if less(s[0].first, key) {
        PositionSplits(less, s[1..], key);
      } else {
        forall i | 0 < i < |s| ensures !less(s[i].first, key) {
          Chain(less, s[0].first, s[i].first, key);
        }
      }
    }
  }

  lemma SplitIsUnique<K, V>(less: Order<K>, s: seq<Entry<K, V>>, key: K, p: nat, q: nat)
    requires Splits(less, s, key, p) && Splits(less, s, key, q)
    ensures p == q
  {
    var atP := if p < |s| then Some(s[p]) else None;
    var atQ := if q < |s| then Some(s[q]) else None;
  }

  /** Bisection misses nothing: an entry of the class anywhere in the vector is the one found. */
  lemma Found<K(!new), V>(less: Order<K>, s: seq<Entry<K, V>>, key: K, i: nat)
    requires StrictWeakOrder(less) && Sorted(less, s) && HitAt(less, s, key, i)
    ensures Position(less, s, key) == i && Get(less, s, key) == Some(s[i])
  {
    hide StrictWeakOrder, Position;
    PositionSplits(less, s, key);
    var p := Position(less, s, key);
    if p < i {
      Substitute(less, s[i].first, key, s[p].first);
    }
  }

  lemma GetIff<K(!new), V>(less: Order<K>, s: seq<Entry<K, V>>, key: K, e: Entry<K, V>)
    requires StrictWeakOrder(less) && Sorted(less, s)
    ensures Get(less, s, key) == Some(e) <==> e in s && Equal(less, e.first, key)
    ensures Get(less, s, key).None? <==> forall i :: 0 <= i < |s| ==> !Equal(less, s[i].first, key)
  {
    hide StrictWeakOrder, Position, Sorted;
    forall i: nat | i < |s| && Equal(less, s[i].first, key) ensures Get(less, s, key) == Some(s[i]) {
      Found(less, s, key, i);
    }
  }

  // ----- the operations -----

  function Inserted<K, V>(less: Order<K>, s: seq<Entry<K, V>>, kv: Entry<K, V>): seq<Entry<K, V>> {
    var p := Position(less, s, kv.first);
    if HitAt(less, s, kv.first, p) then s[p := Entry(s[p].first, kv.second)] else s[..p] + [kv] + s[p..]
  }

  function Removed<K, V>(less: Order<K>, s: seq<Entry<K, V>>, key: K): seq<Entry<K, V>> {
    var p := Position(less, s, key);
    if HitAt(less, s, key, p) then s[..p] + s[p + 1..] else s
  }

  /** `operator[]` before anything is written through the reference it returns. */
  function Touched<K, V>(less: Order<K>, s: seq<Entry<K, V>>, key: K, default: V): seq<Entry<K, V>> {
    var p := Position(less, s, key);
    if HitAt(less, s, key, p) then s else s[..p] + [Entry(key, default)] + s[p..]
  }

  /** Writing through what `find` returned. */
  function Written<K, V>(less: Order<K>, s: seq<Entry<K, V>>, kv: Entry<K, V>): seq<Entry<K, V>> {
    var p := Position(less, s, kv.first);
    if HitAt(less, s, kv.first, p) then s[p := Entry(s[p].first, kv.second)] else s
  }

  /** Entries before and after a gap at the place of an absent key. */
  lemma AroundGap<K(!new), V>(less: Order<K>, s: seq<Entry<K, V>>, key: K, p: nat)
    requires StrictWeakOrder(less) && Sorted(less, s) && Splits(less, s, key, p) && !HitAt(less, s, key, p)
    ensures forall i :: 0 <= i < p ==> less(s[i].first, key)
    ensures forall i :: p <= i < |s| ==> less(key, s[i].first)
  {
    hide StrictWeakOrder;
    forall i | p <= i < |s| ensures less(key, s[i].first) {
      if i > p { Chain(less, key, s[p].first, s[i].first); }
    }
  }

  lemma GapInsert<K(!new), V>(less: Order<K>, s: seq<Entry<K, V>>, kv: Entry<K, V>, p: nat)
    requires StrictWeakOrder(less) && Sorted(less, s)
    requires Splits(less, s, kv.first, p) && !HitAt(less, s, kv.first, p)
    ensures Sorted(less, s[..p] + [kv] + s[p..])
  {
    AroundGap(less, s, kv.first, p);
  }

  lemma EqualKeysSorted<K, V>(less: Order<K>, s: seq<Entry<K, V>>, t: seq<Entry<K, V>>)
    requires Sorted(less, s) && |s| == |t|
    requires forall i :: 0 <= i < |s| ==> s[i].first == t[i].first
    ensures Sorted(less, t)
  {
  }

  // ----- a reference without vectors -----

  datatype Op<K, V> =
    | Insert(kv: Entry<K, V>)
    | Remove(key: K)
    | Index(key: K)
    | IndexAssign(kv: Entry<K, V>)   // m[key] = value
    | FindAssign(kv: Entry<K, V>)    // if (auto* p = m.find(key)) *p = value
    | Clear

  function Key<K, V>(op: Op<K, V>): Option<K> {
    match op
    case Insert(kv) => Some(kv.first)
    case Remove(key) => Some(key)
    case Index(key) => Some(key)
    case IndexAssign(kv) => Some(kv.first)
    case FindAssign(kv) => Some(kv.first)
    case Clear => None
  }

  /** What one operation on a member of a class does to the entry of that class. */
  function Effect<K, V>(op: Op<K, V>, e: Option<Entry<K, V>>, default: V): Option<Entry<K, V>> {
    match op
    case Insert(kv) => Some(Entry(if e.Some? then e.value.first else kv.first, kv.second))
    case Remove(_) => None
    case Index(key) => if e.Some? then e else Some(Entry(key, default))
    case IndexAssign(kv) => Some(Entry(if e.Some? then e.value.first else kv.first, kv.second))
    case FindAssign(kv) => if e.Some? then Some(Entry(e.value.first, kv.second)) else None
    case Clear => None
  }

  /** The entry of the class of `key`, told from the history of operations alone. */
  function Recall<K, V>(less: Order<K>, ops: seq<Op<K, V>>, key: K, default: V): Option<Entry<K, V>> {
    if ops == [] then None
    else
      var op := ops[|ops| - 1];
      var e := Recall(less, ops[..|ops| - 1], key, default);
      if op.Clear? || Equal(less, Key(op).value, key) then Effect(op, e, default) else e
  }

  function Apply<K, V>(less: Order<K>, s: seq<Entry<K, V>>, op: Op<K, V>, default: V): seq<Entry<K, V>> {
    match op
    case Insert(kv) => Inserted(less, s, kv)
    case Remove(key) => Removed(less, s, key)
    case Index(key) => Touched(less, s, key, default)
    case IndexAssign(kv) => Written(less, Touched(less, s, kv.first, default), kv)
    case FindAssign(kv) => Written(less, s, kv)
    case Clear => []
  }

  function After<K, V>(less: Order<K>, ops: seq<Op<K, V>>, default: V): seq<Entry<K, V>> {
    if ops == [] then [] else Apply(less, After(less, ops[..|ops| - 1], default), ops[|ops| - 1], default)
  }

  // ----- each change, seen from any key -----

  /** A new entry in the gap is found by its class and disturbs no other. */
  lemma GapGet<K(!new), V>(less: Order<K>, s: seq<Entry<K, V>>, kv: Entry<K, V>, key: K)
    requires StrictWeakOrder(less) && Sorted(less, s)
    requires !HitAt(less, s, kv.first, Position(less, s, kv.first))
    ensures var p := Position(less, s, kv.first);
            var t := s[..p] + [kv] + s[p..];
            Sorted(less, t) && Get(less, t, key) == if Equal(less, kv.first, key) then Some(kv) else Get(less, s, key)
    ensures Equal(less, kv.first, key) ==> Get(less, s, key).None?
  {
    hide StrictWeakOrder, Position, Sorted;
    var p := Position(less, s, kv.first);
    var t := s[..p] + [kv] + s[p..];
    PositionSplits(less, s, kv.first);
    GapInsert(less, s, kv, p);
    if Equal(less, kv.first, key) {
      Found(less, t, key, p);
      GetIff(less, s, kv.first, kv);
      GetIff(less, s, key, kv);
      forall i | 0 <= i < |s| ensures !Equal(less, s[i].first, key) {
        Substitute(less, kv.first, key, s[i].first);
      }
    } else {
      SameElsewhere(less, s, t, key);
    }
  }

  /** Two vectors with the same entries of one class answer alike about it. */
  lemma SameElsewhere<K(!new), V>(less: Order<K>, s: seq<Entry<K, V>>, t: seq<Entry<K, V>>, key: K)
    requires StrictWeakOrder(less) && Sorted(less, s) && Sorted(less, t)
    requires forall e :: e in s && Equal(less, e.first, key) ==> e in t
    requires forall e :: e in t && Equal(less, e.first, key) ==> e in s
    ensures Get(less, s, key) == Get(less, t, key)
  {
    hide StrictWeakOrder, Position, Sorted;
    var a, b := Get(less, s, key), Get(less, t, key);
    if a.Some? {
      GetIff(less, s, key, a.value);
      GetIff(less, t, key, a.value);
    } else if b.Some? {
      GetIff(less, t, key, b.value);
      GetIff(less, s, key, b.value);
    }
  }

  /** Overwriting a value is seen by the class of its key only. */
  lemma ReplaceGet<K(!new), V>(less: Order<K>, s: seq<Entry<K, V>>, kv: Entry<K, V>, key: K)
    requires StrictWeakOrder(less) && Sorted(less, s)
    requires HitAt(less, s, kv.first, Position(less, s, kv.first))
    ensures var p := Position(less, s, kv.first);
            var t := s[p := Entry(s[p].first, kv.second)];
            && Sorted(less, t)
            && (Equal(less, kv.first, key) ==> Get(less, s, key) == Some(s[p]) && Get(less, t, key) == Some(t[p]))
            && (!Equal(less, kv.first, key) ==> Get(less, t, key) == Get(less, s, key))
  {
    hide StrictWeakOrder, Position, Sorted;
    var p := Position(less, s, kv.first);
    var t := s[p := Entry(s[p].first, kv.second)];
    EqualKeysSorted(less, s, t);
    Substitute(less, s[p].first, kv.first, key);
    if Equal(less, kv.first, key) {
      Found(less, s, key, p);
      Found(less, t, key, p);
    } else {
      forall e | e in s && Equal(less, e.first, key) ensures e in t {
        var i :| 0 <= i < |s| && s[i] == e;
        assert t[i] == e;
      }
      SameElsewhere(less, s, t, key);
    }
  }

  /** Erasing an entry empties its class and no other. */
  lemma DropGet<K(!new), V>(less: Order<K>, s: seq<Entry<K, V>>, gone: K, key: K)
    requires StrictWeakOrder(less) && Sorted(less, s) && HitAt(less, s, gone, Position(less, s, gone))
    ensures var p := Position(less, s, gone);
            var t := s[..p] + s[p + 1..];
            && Sorted(less, t)
            && (Equal(less, gone, key) ==> Get(less, t, key).None?)
            && (!Equal(less, gone, key) ==> Get(less, t, key) == Get(less, s, key))
  {
    hide StrictWeakOrder, Position;
    var p := Position(less, s, gone);
    var t := s[..p] + s[p + 1..];
    Substitute(less, s[p].first, gone, key);
    if Equal(less, gone, key) {
      var found := Get(less, t, key);
      if found.Some? {
        GetIff(less, t, key, found.value);
        var i :| 0 <= i < |t| && t[i] == found.value;
        Found(less, s, key, p);
        Found(less, s, key, if i < p then i else i + 1);
        assert false;
      }
    } else {
      forall e | e in s && Equal(less, e.first, key) ensures e in t {
        var i :| 0 <= i < |s| && s[i] == e;
        assert t[if i < p then i else i - 1] == e;
      }
      SameElsewhere(less, s, t, key);
    }
  }

  /** One operation has its effect on the class of its key and leaves every other class alone. */
  lemma StepAgrees<K(!new), V>(less: Order<K>, s: seq<Entry<K, V>>, op: Op<K, V>, default: V, key: K)
    requires StrictWeakOrder(less) && Sorted(less, s)
    ensures Sorted(less, Apply(less, s, op, default))
    ensures Get(less, Apply(less, s, op, default), key) ==
              if op.Clear? || Equal(less, Key(op).value, key) then Effect(op, Get(less, s, key), default)
              else Get(less, s, key)
  {
    hide StrictWeakOrder, Position;
    match op {
      case Insert(kv) => InsertAgrees(less, s, kv, key);
      case Remove(k) => RemoveAgrees(less, s, k, key);
      case Index(k) => TouchAgrees(less, s, k, default, key);
      case IndexAssign(kv) =>
        TouchAgrees(less, s, kv.first, default, key);
        WriteAgrees(less, Touched(less, s, kv.first, default), kv, key);
      case FindAssign(kv) => WriteAgrees(less, s, kv, key);
      case Clear =>
    }
  }

  lemma InsertAgrees<K(!new), V>(less: Order<K>, s: seq<Entry<K, V>>, kv: Entry<K, V>, key: K)
    requires StrictWeakOrder(less) && Sorted(less, s)
    ensures Sorted(less, Inserted(less, s, kv))
    ensures Get(less, Inserted(less, s, kv), key) ==
              if !Equal(less, kv.first, key) then Get(less, s, key)
              else Some(Entry(if Get(less, s, key).Some? then Get(less, s, key).value.first else kv.first, kv.second))
  {
    hide StrictWeakOrder, Position, Sorted, Get;
    if HitAt(less, s, kv.first, Position(less, s, kv.first)) {
      ReplaceGet(less, s, kv, key);
    } else {
      GapGet(less, s, kv, key);
    }
  }

  lemma RemoveAgrees<K(!new), V>(less: Order<K>, s: seq<Entry<K, V>>, gone: K, key: K)
    requires StrictWeakOrder(less) && Sorted(less, s)
    ensures Sorted(less, Removed(less, s, gone))
    ensures Get(less, Removed(less, s, gone), key) == if Equal(less, gone, key) then None else Get(less, s, key)
  {
    hide StrictWeakOrder, Position, Sorted;
    if HitAt(less, s, gone, Position(less, s, gone)) {
      DropGet(less, s, gone, key);
    } else if Equal(less, gone, key) {
      AbsentClass(less, s, gone, key);
    }
  }

  /** A class whose search misses has no entry under any of its keys. */
  lemma AbsentClass<K(!new), V>(less: Order<K>, s: seq<Entry<K, V>>, missing: K, key: K)
    requires StrictWeakOrder(less) && Sorted(less, s) && Get(less, s, missing).None? && Equal(less, missing, key)
    ensures Get(less, s, key).None?
  {
    hide StrictWeakOrder, Position, Sorted;
    var found := Get(less, s, key);
    if found.Some? {
      GetIff(less, s, key, found.value);
      GetIff(less, s, missing, found.value);
      Substitute(less, missing, key, found.value.first);
    }
  }

  lemma TouchAgrees<K(!new), V>(less: Order<K>, s: seq<Entry<K, V>>, k: K, default: V, key: K)
    requires StrictWeakOrder(less) && Sorted(less, s)
    ensures Sorted(less, Touched(less, s, k, default))
    ensures Get(less, Touched(less, s, k, default), key) ==
              if Equal(less, k, key) && Get(less, s, key).None? then Some(Entry(k, default)) else Get(less, s, key)
  {
    hide StrictWeakOrder, Position, Sorted, Get;
    if HitAt(less, s, k, Position(less, s, k)) {
      ReplaceGet(less, s, Entry(k, s[Position(less, s, k)].second), key);
    } else {
      GapGet(less, s, Entry(k, default), key);
    }
  }

  lemma WriteAgrees<K(!new), V>(less: Order<K>, s: seq<Entry<K, V>>, kv: Entry<K, V>, key: K)
    requires StrictWeakOrder(less) && Sorted(less, s)
    ensures Sorted(less, Written(less, s, kv))
    ensures Get(less, Written(less, s, kv), key) ==
              if Equal(less, kv.first, key) && Get(less, s, key).Some?
              then Some(Entry(Get(less, s, key).value.first, kv.second)) else Get(less, s, key)
  {
    hide StrictWeakOrder, Position, Sorted;
    if HitAt(less, s, kv.first, Position(less, s, kv.first)) {
      ReplaceGet(less, s, kv, key);
    } else if Equal(less, kv.first, key) {
      AbsentClass(less, s, kv.first, key);
    }
  }

  // ----- whole runs -----

  lemma {:induction false} RunStaysSorted<K(!new), V>(less: Order<K>, ops: seq<Op<K, V>>, default: V)
    requires StrictWeakOrder(less)
    ensures Sorted(less, After(less, ops, default))
  {
    hide StrictWeakOrder, Apply, Sorted;
    if ops == [] {
      EmptySorted<K, V>(less);
    } else {
      RunStaysSorted(less, ops[..|ops| - 1], default);
      var op := ops[|ops| - 1];
      if op.Clear? {
        EmptySorted<K, V>(less);
        StepClears(less, After(less, ops[..|ops| - 1], default), default);
      } else {
        StepAgrees(less, After(less, ops[..|ops| - 1], default), op, default, Key(op).value);
      }
    }
  }

  lemma StepClears<K, V>(less: Order<K>, s: seq<Entry<K, V>>, default: V)
    ensures Apply(less, s, Clear, default) == []
  {
  }

  lemma EmptySorted<K, V>(less: Order<K>)
    ensures Sorted<K, V>(less, [])
  {
  }

  /** After any run, searching the vector for any key answers what the history says. */
  lemma {:induction false} AgreesWithHistory<K(!new), V>(less: Order<K>, ops: seq<Op<K, V>>, default: V, key: K)
    requires StrictWeakOrder(less)
    ensures Get(less, After(less, ops, default), key) == Recall(less, ops, key, default)
  {
    hide StrictWeakOrder, Apply, Effect, Sorted;
    if ops != [] {
      var before := ops[..|ops| - 1];
      RunStaysSorted(less, before, default);
      AgreesWithHistory(less, before, default, key);
      StepAgrees(less, After(less, before, default), ops[|ops| - 1], default, key);
    }
  }

  /**
   The last operation, from the outside: after an insertion or an assignment the key has the value
   written, after a removal or clearing it has none, after indexing it has the one it had or the
   default; a key that was there keeps its first form, and `find` alone never adds one.
   */
  lemma LastOperation<K(!new), V>(less: Order<K>, ops: seq<Op<K, V>>, kv: Entry<K, V>, default: V)
    requires StrictWeakOrder(less)
    ensures var was := Get(less, After(less, ops, default), kv.first);
            var key := if was.Some? then was.value.first else kv.first;
            && Get(less, After(less, ops + [Op.Insert(kv)], default), kv.first) == Some(Entry(key, kv.second))
            && Get(less, After(less, ops + [IndexAssign(kv)], default), kv.first) == Some(Entry(key, kv.second))
            && Get(less, After(less, ops + [Op.Remove(kv.first)], default), kv.first) == None
            && Get(less, After(less, ops + [Op.Clear], default), kv.first) == None
            && Get(less, After(less, ops + [Index(kv.first)], default), kv.first)
                 == Some(Entry(key, if was.Some? then was.value.second else default))
            && Get(less, After(less, ops + [FindAssign(kv)], default), kv.first)
                 == if was.Some? then Some(Entry(key, kv.second)) else None
  {
    hide StrictWeakOrder, Position, Sorted, Get, Apply;
    RunStaysSorted(less, ops, default);
    Reflexive(less, kv.first);
    var s := After(less, ops, default);
    forall op: Op<K, V> ensures After(less, ops + [op], default) == Apply(less, s, op, default) {
      assert (ops + [op])[..|ops|] == ops;
    }
    StepAgrees(less, s, Op.Insert(kv), default, kv.first);
    StepAgrees(less, s, IndexAssign(kv), default, kv.first);
    StepAgrees(less, s, Op.Remove(kv.first), default, kv.first);
    StepAgrees(less, s, Op.Clear, default, kv.first);
    StepAgrees(less, s, Index(kv.first), default, kv.first);
    StepAgrees(less, s, FindAssign(kv), default, kv.first);
  }

  /** The vector holds exactly the entries the history yields, one for each class. */
  lemma HoldsTheHistory<K(!new), V>(less: Order<K>, ops: seq<Op<K, V>>, default: V, e: Entry<K, V>)
    requires StrictWeakOrder(less)
    ensures e in After(less, ops, default) <==> Recall(less, ops, e.first, default) == Some(e)
  {
    RunStaysSorted(less, ops, default);
    AgreesWithHistory(less, ops, default, e.first);
    Reflexive(less, e.first);
    GetIff(less, After(less, ops, default), e.first, e);
  }

  // ----- the map as an object -----

  function InsertedAll<K, V>(less: Order<K>, s: seq<Entry<K, V>>, kvs: seq<Entry<K, V>>): seq<Entry<K, V>> {
    if kvs == [] then s else Inserted(less, InsertedAll(less, s, kvs[..|kvs| - 1]), kvs[|kvs| - 1])
  }

  class SoulFlatMap<K(!new), V> {
    const compare: Order<K>
    var data: seq<Entry<K, V>>

    ghost predicate Valid()
      reads this
    {
      StrictWeakOrder(compare) && Sorted(compare, data)
    }

    constructor (compare: Order<K>)
      requires StrictWeakOrder(compare)
      ensures Valid() && data == [] && this.compare == compare
    {
      this.compare := compare;
      data := [];
    }

    /** Bisection, as `std::lower_bound` does it. */
    method LowerBound(key: K) returns (first: nat)
      requires Valid()
      ensures first == Position(compare, data, key) && Splits(compare, data, key, first)
    {
      hide StrictWeakOrder, Position;
      first := 0;
      var count: nat := |data|;
      while count > 0
        invariant first + count <= |data|
        invariant forall i :: 0 <= i < first ==> compare(data[i].first, key)
        invariant forall i :: first + count <= i < |data| ==> !compare(data[i].first, key)
      {
        var step := count / 2;
        var it := first + step;
        if compare(data[it].first, key) {
          BelowToo(it, key);
          first := it + 1;
          count := count - (step + 1);
        } else {
          AboveToo(it, key);
          count := step;
        }
      }
      PositionSplits(compare, data, key);
      SplitIsUnique(compare, data, key, first, Position(compare, data, key));
    }

    lemma BelowToo(it: nat, key: K)
      requires Valid() && it < |data| && compare(data[it].first, key)
      ensures forall i :: 0 <= i <= it ==> compare(data[i].first, key)
    {
      hide StrictWeakOrder;
      forall i | 0 <= i <= it ensures compare(data[i].first, key) {
        if i < it { Chain(compare, data[i].first, data[it].first, key); }
      }
    }

    lemma AboveToo(it: nat, key: K)
      requires Valid() && it < |data| && !compare(data[it].first, key)
      ensures forall i :: it <= i < |data| ==> !compare(data[i].first, key)
    {
      hide StrictWeakOrder;
      forall i | it <= i < |data| ensures !compare(data[i].first, key) {
        if it < i { Chain(compare, data[it].first, data[i].first, key); }
      }
    }

    method Insert(kv: Entry<K, V>)
      requires Valid()
      modifies this
      ensures Valid() && data == Inserted(compare, old(data), kv)
    {
      InsertAgrees(compare, data, kv, kv.first);
      hide StrictWeakOrder, Position, Sorted;
      var it := LowerBound(kv.first);
      if it < |data| && Equal(compare, data[it].first, kv.first) {
        data := data[it := Entry(data[it].first, kv.second)];
      } else {
        data := data[..it] + [kv] + data[it..];
      }
    }

    /** Only the key of `kv` matters. */
    method Remove(kv: Entry<K, V>)
      requires Valid()
      modifies this
      ensures Valid() && data == Removed(compare, old(data), kv.first)
    {
      RemoveAgrees(compare, data, kv.first, kv.first);
      hide StrictWeakOrder, Position, Sorted;
      var it := LowerBound(kv.first);
      if it < |data| && Equal(compare, data[it].first, kv.first) {
        data := data[..it] + data[it + 1..];
      }
    }

    /** `operator[]`: the position of the entry, which is made if there is none. */
    method At(key: K, default: V) returns (it: nat)
      requires Valid()
      modifies this
      ensures Valid() && data == Touched(compare, old(data), key, default)
      ensures it < |data| && Equal(compare, data[it].first, key)
    {
      TouchAgrees(compare, data, key, default, key);
      Reflexive(compare, key);
      hide StrictWeakOrder, Position, Sorted;
      it := LowerBound(key);
      if it == |data| || !Equal(compare, data[it].first, key) {
        data := data[..it] + [Entry(key, default)] + data[it..];
      }
    }

    /** The position of the entry of the class, or the end. */
    method FindIterator(key: K) returns (it: nat)
      requires Valid()
      ensures it <= |data|
      ensures it < |data| ==> Get(compare, data, key) == Some(data[it]) && Equal(compare, data[it].first, key)
      ensures it == |data| ==> Get(compare, data, key).None?
      ensures it == |data| ==> forall i :: 0 <= i < |data| ==> !Equal(compare, data[i].first, key)
    {
      it := LowerBound(key);
      if it < |data| && Equal(compare, data[it].first, key) {
        return it;
      }
      if data != [] { GetIff(compare, data, key, data[0]); }
      it := |data|;
    }

    method Contains(key: K) returns (found: bool)
      requires Valid()
      ensures found <==> exists i :: 0 <= i < |data| && Equal(compare, data[i].first, key)
    {
      var it := FindIterator(key);
      found := it != |data|;
    }

    method Lookup(key: K) returns (value: Option<V>)
      requires Valid()
      ensures value.None? <==> forall i :: 0 <= i < |data| ==> !Equal(compare, data[i].first, key)
      ensures value.Some? ==>
                exists i :: 0 <= i < |data| && Equal(compare, data[i].first, key) && data[i].second == value.value
      ensures value == match Get(compare, data, key) case None => None case Some(e) => Some(e.second)
    {
      var it := FindIterator(key);
      if it == |data| {
        return None;
      }
      value := Some(data[it].second);
    }

    /** Writing through the pointer `find` returns; nothing happens when it is null. */
    method FindAndWrite(kv: Entry<K, V>) returns (found: bool)
      requires Valid()
      modifies this
      ensures Valid() && data == Written(compare, old(data), kv)
      ensures found <==> Get(compare, old(data), kv.first).Some?
    {
      WriteAgrees(compare, data, kv, kv.first);
      hide StrictWeakOrder, Sorted;
      var it := FindIterator(kv.first);
      found := it != |data|;
      if found {
        Found(compare, data, kv.first, it);
        data := data[it := Entry(data[it].first, kv.second)];
      }
    }

    /** Reserving room changes no entry, so a range is inserted one by one, the last value winning. */
    method InsertRange(range: seq<Entry<K, V>>)
      requires Valid()
      modifies this
      ensures Valid() && data == InsertedAll(compare, old(data), range)
    {
      hide StrictWeakOrder, Sorted, Inserted;
      var i := 0;
      while i < |range|
        invariant 0 <= i <= |range| && Valid()
        invariant data == InsertedAll(compare, old(data), range[..i])
      {
        assert range[..i + 1][..i] == range[..i];
        Insert(range[i]);
        i := i + 1;
      }
      assert range[..i] == range;
    }

    method Clear()
      requires Valid()
      modifies this
      ensures Valid() && data == []
    {
      data := [];
    }
  }

  /** A range acts like the history of its single insertions. */
  lemma {:induction false} RangeIsHistory<K(!new), V>(
    less: Order<K>, ops: seq<Op<K, V>>, kvs: seq<Entry<K, V>>, default: V)
    ensures InsertedAll(less, After(less, ops, default), kvs) ==
              After(less, ops + seq(|kvs|, i requires 0 <= i < |kvs| => Insert(kvs[i])), default)
  {
    hide Inserted;
    var inserts := seq(|kvs|, i requires 0 <= i < |kvs| => Op.Insert(kvs[i]));
    if kvs == [] {
      assert ops + inserts == ops;
    } else {
      var n := |kvs| - 1;
      RangeIsHistory(less, ops, kvs[..n], default);
      var fewer := seq(n, i requires 0 <= i < n => Op.Insert(kvs[..n][i]));
      assert (ops + inserts)[..|ops + inserts| - 1] == ops + fewer;
    }
  }
}
