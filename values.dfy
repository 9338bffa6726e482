/** Python values that flow through keyword arguments, capabilities and
    experimental options, with dictionaries kept in insertion order. */
module Values {
  import opened Wrappers
  import opened Text

  datatype Value =
    | Str(s: string)
    | Int(i: int)
    | Bool(b: bool)
    | Null
    | List(items: seq<Value>)
    | Dict(entries: Entries)

  /** A Python dict: its (key, value) pairs in insertion order. */
  type Entries = seq<(string, Value)>

  /** Python's `k in d`. */
  predicate HasKey(d: Entries, k: string) {
    exists i | 0 <= i < |d| :: d[i].0 == k
  }

  /** No key occurs twice, as in every dict Python builds. */
  predicate DistinctKeys(d: Entries) {
    forall i, j :: 0 <= i < j < |d| ==> d[i].0 != d[j].0
  }

  lemma HasKeyTail(d: Entries, k: string)
    requires d != [] && d[0].0 != k
    ensures HasKey(d, k) <==> HasKey(d[1..], k)
  {
    assert forall i | 0 < i < |d| :: d[1..][i - 1] == d[i];
  }

  /** Python's `d.get(k)`. */
  function Lookup(d: Entries, k: string): (r: Option<Value>)
    ensures r.Some? <==> HasKey(d, k)
    ensures r.Some? ==> (k, r.value) in d
  {
    if d == [] then None
    else if d[0].0 == k then Some(d[0].1)
    else
      HasKeyTail(d, k);
      Lookup(d[1..], k)
  }

  /** Python's `d[k] = v`: an existing key keeps its place, a new one goes last. */
  function Assign(d: Entries, k: string, v: Value): (r: Entries)
    ensures !HasKey(d, k) ==> r == d + [(k, v)]
    ensures HasKey(d, k) ==> |r| == |d|
  {
    if d == [] then [(k, v)]
    else if d[0].0 == k then [(k, v)] + d[1..]
    else
      HasKeyTail(d, k);
      [d[0]] + Assign(d[1..], k, v)
  }

  /** After `d[k] = v`, `d.get(k)` is `v` and every other key reads as before. */
  lemma {:induction false} AssignLookup(d: Entries, k: string, v: Value, k': string)
    ensures Lookup(Assign(d, k, v), k') == if k' == k then Some(v) else Lookup(d, k')
  {
    if d != [] && d[0].0 != k {
      AssignLookup(d[1..], k, v, k');
    }
  }

  /** Assignment keeps the keys of a dict distinct. */
  lemma {:induction false} AssignDistinct(d: Entries, k: string, v: Value)
    requires DistinctKeys(d)
    ensures DistinctKeys(Assign(d, k, v))
  {
    if d != [] && d[0].0 != k {
      AssignDistinct(d[1..], k, v);
      AssignKeys(d[1..], k, v);
      var r := Assign(d, k, v);
      forall i, j | 0 <= i < j < |r| ensures r[i].0 != r[j].0 {
        if i == 0 {
          var t := Assign(d[1..], k, v);
          assert r[j] == t[j - 1];
          assert t[j - 1].0 == k || t[j - 1] in d[1..];
        }
      }
    }
  }

  /** Every pair after `d[k] = v` is the new pair or one that was there. */
  lemma {:induction false} AssignKeys(d: Entries, k: string, v: Value)
    ensures forall i :: 0 <= i < |Assign(d, k, v)| ==>
      Assign(d, k, v)[i].0 == k || Assign(d, k, v)[i] in d
  {
    if d != [] && d[0].0 != k {
      AssignKeys(d[1..], k, v);
      var r, t := Assign(d, k, v), Assign(d[1..], k, v);
      forall i | 0 <= i < |r| ensures r[i].0 == k || r[i] in d {
        if i > 0 { assert r[i] == t[i - 1]; }
      }
    }
  }

  /** Python's `d.update(e)`: the pairs of `e` assigned one by one, in order. */
  function Update(d: Entries, e: Entries): (r: Entries)
    decreases |e|
  {
    if e == [] then d else Update(Assign(d, e[0].0, e[0].1), e[1..])
  }

  /** After `d.update(e)` a key of `e` reads as in `e`, any other key as in `d`. */
  lemma {:induction false} UpdateLookup(d: Entries, e: Entries, k: string)
    requires DistinctKeys(e)
    ensures Lookup(Update(d, e), k) == if HasKey(e, k) then Lookup(e, k) else Lookup(d, k)
    decreases |e|
  {
    if e != [] {
      var d' := Assign(d, e[0].0, e[0].1);
      UpdateLookup(d', e[1..], k);
      AssignLookup(d, e[0].0, e[0].1, k);
      if k == e[0].0 {
        forall i | 0 <= i < |e| - 1 ensures e[1..][i].0 != k {
          assert e[1..][i] == e[i + 1];
        }
      } else {
        HasKeyTail(e, k);
      }
    }
  }

  /** The removal half of Python's `d.pop(k, default)`: the pair with key
      `k` goes, the others keep their order. */
  function Remove(d: Entries, k: string): (r: Entries)
    ensures !HasKey(r, k)
    ensures forall p :: p in r <==> p in d && p.0 != k
    ensures !HasKey(d, k) ==> r == d
  {
    if d == [] then []
    else
      var rest := Remove(d[1..], k);
      if d[0].0 == k then rest
      else
        HasKeyTail(d, k);
        [d[0]] + rest
  }

  /** After a pop, the popped key is gone and every other key reads as before. */
  lemma {:induction false} RemoveLookup(d: Entries, k: string, k': string)
    ensures Lookup(Remove(d, k), k') == if k' == k then None else Lookup(d, k')
  {
    if d != [] {
      RemoveLookup(d[1..], k, k');
    }
  }

  /** Python's `str(v)` inside an f-string, for the scalar values. */
  function Render(v: Value): string
  {
    match v
    case Str(s) => s
    case Int(i) => IntToString(i)
    case Bool(b) => if b then "True" else "False"
    case Null => "None"
    case List(_) => "[...]"
    case Dict(_) => "{...}"
  }
}
