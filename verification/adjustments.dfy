/** Nested dictionaries addressed by a path of keys, as the configurator
    builds and merges them (services/ai_strategy_configurator.py,
    `_compile_adjustments` and `_deep_merge`). */
module Adjustments {
  import opened Wrappers
  import opened Values

  /** `d[p0][p1]...[pn]`, `None` when a key is missing or a step is not a
      dictionary. */
  function GetPath(d: Dict, path: seq<string>): Option<Value>
    requires |path| >= 1
    decreases |path|
  {
    if |path| == 1 then Get(d, path[0])
    else
      match Get(d, path[0])
      case Some(VDict(inner)) => GetPath(inner, path[1..])
      case _ => None
  }

  /** Every step before the last is missing or a dictionary, so the walk of
      `_compile_adjustments` can go down (creating what is missing). */
  predicate PathOpen(d: Dict, path: seq<string>)
    requires |path| >= 1
    decreases |path|
  {
    |path| == 1 ||
    match Get(d, path[0])
    case None => true
    case Some(VDict(inner)) => PathOpen(inner, path[1..])
    case Some(_) => false
  }

  /** A fresh dictionary is open along every path. */
  lemma {:induction false} EmptyOpen(path: seq<string>)
    requires |path| >= 1
    ensures PathOpen([], path)
  {
  }

  /** One pass of the inner loop of `_compile_adjustments`: walk down the
      path creating `{}` for missing steps, then set the last key.  A step
      that holds something other than a dictionary makes Python raise
      `TypeError`. */
  function SetPath(d: Dict, path: seq<string>, v: Value): (r: Result<Dict>)
    requires |path| >= 1
    ensures r.Ok? <==> PathOpen(d, path)
    ensures r.Ok? ==> GetPath(r.value, path) == Some(v)
    ensures r.Ok? ==> forall k :: k != path[0] ==> Get(r.value, k) == Get(d, k)
    ensures r.Ok? && UniqueKeys(d) ==> UniqueKeys(r.value)
    decreases |path|
  {
    if |path| == 1 then Ok(Put(d, path[0], v))
    else
      var inner: Result<Dict> :=
        match Get(d, path[0])
        case None => Ok([])
        case Some(VDict(f)) => Ok(f)
        case Some(_) => Err("TypeError");
      if inner.Err? then Err("TypeError")
      else
        var below := SetPath(inner.value, path[1..], v);
        if below.Err? then Err("TypeError")
        else Ok(Put(d, path[0], VDict(below.value)))
  }

  /** Putting the same key twice keeps only the second value, in the place
      the first one took. */
  lemma PutTwice(d: Dict, key: string, a: Value, b: Value)
    ensures Put(Put(d, key, a), key, b) == Put(d, key, b)
  {
    if IndexOf(d, key) >= 0 {
      PutTwicePresent(d, key, a, b);
    } else {
      PutTwiceAbsent(d, key, a, b);
    }
  }

  /** `Put` of a present key overwrites its field in place. */
  lemma PutAt(d: Dict, key: string, v: Value)
    requires IndexOf(d, key) >= 0
    ensures Put(d, key, v) == d[IndexOf(d, key) := Field(key, v)]
  {
  }

  /** `Put` of an absent key appends a field. */
  lemma PutEnd(d: Dict, key: string, v: Value)
    requires IndexOf(d, key) < 0
    ensures Put(d, key, v) == d + [Field(key, v)]
  {
  }

  lemma UpdateTwice(s: Dict, i: int, x: Field, y: Field)
    requires 0 <= i < |s|
    ensures s[i := x][i := y] == s[i := y]
  {
  }

  /** Overwriting the field of a key keeps the key where it was. */
  lemma IndexOfUpdate(d: Dict, key: string, f: Field)
    requires IndexOf(d, key) >= 0 && f.key == key
    ensures IndexOf(d[IndexOf(d, key) := f], key) == IndexOf(d, key)
  {
    var i := IndexOf(d, key);
    var d1 := d[i := f];
    assert forall j :: 0 <= j < i ==> d1[j] == d[j];
    IndexOfFirst(d1, key, i);
  }

  lemma PutTwiceStep(d: Dict, key: string, a: Value, b: Value, i: int, d1: Dict)
    requires i == IndexOf(d, key) >= 0 && d1 == d[i := Field(key, a)]
    requires Put(d, key, a) == d1
    requires Put(d1, key, b) == d1[i := Field(key, b)]
    requires Put(d, key, b) == d[i := Field(key, b)]
    ensures Put(Put(d, key, a), key, b) == Put(d, key, b)
  {
    UpdateTwice(d, i, Field(key, a), Field(key, b));
  }

  lemma PutTwicePresent(d: Dict, key: string, a: Value, b: Value)
    requires IndexOf(d, key) >= 0
    ensures Put(Put(d, key, a), key, b) == Put(d, key, b)
  {
    var i := IndexOf(d, key);
    var d1 := d[i := Field(key, a)];
    PutAt(d, key, a);
    IndexOfUpdate(d, key, Field(key, a));
    PutAt(d1, key, b);
    PutAt(d, key, b);
    PutTwiceStep(d, key, a, b, i, d1);
  }

  lemma PutTwiceAbsent(d: Dict, key: string, a: Value, b: Value)
    requires IndexOf(d, key) < 0
    ensures Put(Put(d, key, a), key, b) == Put(d, key, b)
  {
    var d1 := d + [Field(key, a)];
    PutEnd(d, key, a);
    IndexOfFirst(d1, key, |d|);
    PutAt(d1, key, b);
    PutEnd(d, key, b);
    assert d1[|d| := Field(key, b)] == d + [Field(key, b)];
  }

  /** The dictionary the walk goes down into at `key`. */
  function Child(d: Dict, key: string): Dict {
    match Get(d, key)
    case Some(VDict(f)) => f
    case _ => []
  }

  /** One step of the walk along an open path. */
  lemma SetPathStep(d: Dict, path: seq<string>, v: Value)
    requires |path| > 1 && PathOpen(d, path)
    ensures SetPath(Child(d, path[0]), path[1..], v).Ok?
    ensures SetPath(d, path, v) == Ok(Put(d, path[0], VDict(SetPath(Child(d, path[0]), path[1..], v).value)))
  {
  }

  /** Neither path is a prefix of the other: they part at some step. */
  predicate Diverge(p: seq<string>, q: seq<string>)
    decreases |p|
  {
    |p| > 0 && |q| > 0 && (p[0] != q[0] || Diverge(p[1..], q[1..]))
  }

  /** A fresh dictionary holds nothing along any path. */
  lemma EmptyGetPath(q: seq<string>)
    requires |q| >= 1
    ensures GetPath([], q) == None
  {
    assert Get([], q[0]) == None;
  }

  /** Two dictionaries that agree on the first key agree along every path
      through it. */
  lemma SameHead(a: Dict, b: Dict, q: seq<string>)
    requires |q| >= 1 && Get(a, q[0]) == Get(b, q[0])
    ensures GetPath(a, q) == GetPath(b, q)
  {
  }

  /** Setting one path leaves every path that parts from it as it was: the
      walk of `_compile_adjustments` touches nothing off its own path. */
  lemma {:induction false} SetPathFrame(d: Dict, path: seq<string>, v: Value, q: seq<string>)
    requires |path| >= 1 && |q| >= 1 && Diverge(path, q)
    requires SetPath(d, path, v).Ok?
    ensures GetPath(SetPath(d, path, v).value, q) == GetPath(d, q)
    decreases |path|
  {
    var r := SetPath(d, path, v).value;
    if path[0] != q[0] {
      SameHead(r, d, q);
    } else {
      SetPathStep(d, path, v);
      var inner := Child(d, path[0]);
      var below := SetPath(inner, path[1..], v).value;
      SetPathFrame(inner, path[1..], v, q[1..]);
      assert Get(r, q[0]) == Some(VDict(below));
      assert GetPath(r, q) == GetPath(below, q[1..]);
      if Get(d, q[0]).None? {
        EmptyGetPath(q[1..]);
      }
    }
  }

  /** Setting the same path twice is setting it once to the second value:
      a later recommendation for a path overwrites an earlier one. */
  lemma {:induction false} SetTwice(d: Dict, path: seq<string>, a: Value, b: Value)
    requires |path| >= 1
    requires SetPath(d, path, a).Ok?
    ensures SetPath(SetPath(d, path, a).value, path, b) == SetPath(d, path, b)
    decreases |path|
  {
    if |path| == 1 {
      PutTwice(d, path[0], a, b);
    } else {
      var key, rest := path[0], path[1..];
      var inner := Child(d, key);
      SetPathStep(d, path, a);
      SetPathStep(d, path, b);
      var below := SetPath(inner, rest, a).value;
      var d1 := Put(d, key, VDict(below));
      assert Child(d1, key) == below;
      SetTwice(inner, rest, a, b);
      assert PathOpen(d1, path);
      SetPathStep(d1, path, b);
      PutTwice(d, key, VDict(below), VDict(SetPath(inner, rest, b).value));
    }
  }

  // ------------------------------------------------------------ deep merge

  /** `_deep_merge(base, updates)`: the updates in order; a key whose old and
      new values are both dictionaries is merged recursively, any other key
      takes the new value.  `base` itself is a value and never changes. */
  function DeepMerge(base: Dict, updates: Dict): (r: Dict)
    ensures forall k :: k !in Keys(updates) ==> Get(r, k) == Get(base, k)
    ensures UniqueKeys(base) ==> UniqueKeys(r)
    decreases updates
  {
    if |updates| == 0 then base
    else
      var f := updates[0];
      var next := MergeEntry(base, f);
      assert forall k :: k !in Keys(updates) ==> k != f.key && k !in Keys(updates[1..]);
      DeepMerge(next, updates[1..])
  }

  /** The effect of one `key: value` of the updates. */
  function MergeEntry(base: Dict, f: Field): (r: Dict)
    ensures forall k :: k != f.key ==> Get(r, k) == Get(base, k)
    ensures UniqueKeys(base) ==> UniqueKeys(r)
    decreases f, 0
  {
    match Get(base, f.key)
    case Some(VDict(prior)) =>
      (match f.val
       case VDict(incoming) => Put(base, f.key, VDict(DeepMerge(prior, incoming)))
       case _ => Put(base, f.key, f.val))
    case _ => Put(base, f.key, f.val)
  }

  /** The value a key ends with: the update's value, or the recursive merge
      when both sides hold dictionaries. */
  function Merged(prior: Option<Value>, incoming: Value): Value {
    match (prior, incoming)
    case (Some(VDict(o)), VDict(n)) => VDict(DeepMerge(o, n))
    case _ => incoming
  }

  /** Every key of the updates ends with its merged value. */
  lemma {:induction false} MergeTakesUpdate(base: Dict, updates: Dict, k: string)
    requires UniqueKeys(updates) && k in Keys(updates)
    ensures Get(DeepMerge(base, updates), k) == Some(Merged(Get(base, k), Get(updates, k).value))
    decreases updates
  {
    var f := updates[0];
    var next := MergeEntry(base, f);
    assert Keys(updates) == [f.key] + Keys(updates[1..]);
    if f.key == k {
      assert Get(updates, k) == Some(f.val);
      assert k !in Keys(updates[1..]);
      assert Get(next, k) == Some(Merged(Get(base, k), f.val));
    } else {
      assert k in Keys(updates[1..]);
      assert UniqueKeys(updates[1..]) by {
        forall i, j | 0 <= i < j < |updates[1..]|
          ensures updates[1..][i].key != updates[1..][j].key
        {
          assert updates[1..][i] == updates[i + 1] && updates[1..][j] == updates[j + 1];
        }
      }
      assert Get(updates, k) == Get(updates[1..], k) by {
        assert IndexOf(updates, k) == IndexOf(updates[1..], k) + 1;
      }
      MergeTakesUpdate(next, updates[1..], k);
    }
  }
}
