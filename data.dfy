/** The attribute pools of `data.py`: the deterministic string hash, list
    filtering, the `BaseData` pool with its shuffled cyclic view, and the
    weighted user-agent and window-size pools. */
module Data {
  import opened Wrappers
  import opened Text

  // ---------------------------------------------------------------------------
  // hash_string
  // ---------------------------------------------------------------------------

  /** One step of the rolling hash, `(h * 281 ^ ord(ch) * 997) & 0xFFFFFFFF`.
      The mask is the wrap-around of `bv32` arithmetic; `ord(ch) * 997` is
      below 2^31 for every code point, so computing it in `bv32` loses nothing. */
  function HashStep(h: bv32, ch: char): bv32
  {
    (h * 281) ^ ((ch as bv32) * 997)
  }

  /** The hash of `s` when the accumulator starts at `h`. */
  function HashFrom(h: bv32, s: string): bv32
    decreases |s|
  {
    if s == [] then h else HashFrom(HashStep(h, s[0]), s[1..])
  }

  /** `hash_string(s)`: the accumulator starts at 0. */
  function Hash(s: string): bv32
  {
    HashFrom(0, s)
  }

  /** Hashing a concatenation resumes from the hash of the first part. */
  lemma {:induction false} HashFromConcat(h: bv32, a: string, b: string)
    ensures HashFrom(h, a + b) == HashFrom(HashFrom(h, a), b)
    decreases |a|
  {
    if a != [] {
      var h' := HashStep(h, a[0]);
      assert (a + b)[0] == a[0] && (a + b)[1..] == a[1..] + b;
      calc {
        HashFrom(h, a + b);
        HashFrom(h', a[1..] + b);
        { HashFromConcat(h', a[1..], b); }
        HashFrom(HashFrom(h', a[1..]), b);
      }
    } else {
      assert a + b == b;
    }
  }

  /** The empty string hashes to 0, and each further character is exactly one step. */
  lemma HashSnoc(s: string, ch: char)
    ensures Hash([]) == 0
    ensures Hash(s + [ch]) == HashStep(Hash(s), ch)
  {
    HashFromConcat(0, s, [ch]);
  }

  /** `hash_string`, with its loop over the characters. */
  method HashString(text: string) returns (h: bv32)
    ensures h == Hash(text)
  {
    h := 0;
    var i := 0;
    while i < |text|
      invariant 0 <= i <= |text|
      invariant HashFrom(h, text[i..]) == Hash(text)
    {
      assert text[i..][1..] == text[i + 1..];
      h := HashStep(h, text[i]);
      i := i + 1;
    }
  }

  /** The hash depends on the order of the characters. */
  lemma HashIsOrderSensitive()
    ensures Hash("ab") != Hash("ba")
  {
    assert "ab"[0] == 'a' && "ab"[1..] == "b" && "b"[0] == 'b' && "b"[1..] == [];
    assert "ba"[0] == 'b' && "ba"[1..] == "a" && "a"[0] == 'a' && "a"[1..] == [];
    assert HashStep(0, 'a') == 96709 by { assert ('a' as bv32) * 997 == 96709; }
    assert HashStep(0, 'b') == 97706 by { assert ('b' as bv32) * 997 == 97706; }
    assert HashStep(96709, 'b') == 27251863 by {
      assert (96709 as bv32) * 281 == 27175229;
      assert 27175229 ^ (97706 as bv32) == 27251863;
    }
    assert HashStep(97706, 'a') == 27498079 by {
      assert (97706 as bv32) * 281 == 27455386;
      assert 27455386 ^ (96709 as bv32) == 27498079;
    }
  }

  // ---------------------------------------------------------------------------
  // delete_from_list
  // ---------------------------------------------------------------------------

  /** `[item for item in xs if item != x]`. */
  function DeleteFromList<T(==)>(xs: seq<T>, x: T): (r: seq<T>)
    ensures x !in r
    ensures multiset(r) == multiset(xs)[x := 0]
    decreases |xs|
  {
    if xs == [] then []
    else
      var r := (if xs[0] == x then [] else [xs[0]]) + DeleteFromList(xs[1..], x);
      assert xs == [xs[0]] + xs[1..];
      r
  }

  /** Filtering a concatenation filters each part and keeps them in order. */
  lemma {:induction false} DeleteFromListConcat<T>(a: seq<T>, b: seq<T>, x: T)
    ensures DeleteFromList(a + b, x) == DeleteFromList(a, x) + DeleteFromList(b, x)
    decreases |a|
  {
    if a != [] {
      assert (a + b)[0] == a[0] && (a + b)[1..] == a[1..] + b;
      DeleteFromListConcat(a[1..], b, x);
      assert DeleteFromList(a + b, x)
          == (if a[0] == x then [] else [a[0]]) + DeleteFromList(a[1..] + b, x);
    } else {
      assert a + b == b;
    }
  }

  /** A list without `x` is returned unchanged. */
  lemma {:induction false} DeleteFromListAbsent<T>(xs: seq<T>, x: T)
    requires x !in xs
    ensures DeleteFromList(xs, x) == xs
    decreases |xs|
  {
    if xs != [] {
      DeleteFromListAbsent(xs[1..], x);
    }
  }

  // ---------------------------------------------------------------------------
  // BaseData
  // ---------------------------------------------------------------------------

  /** The position of a `cycle` iterator over `n` values after one more draw. */
  function Next(cursor: nat, n: nat): nat
  {
    if cursor + 1 >= n then 0 else cursor + 1
  }

  /** The position after `k` more draws. */
  function Advance(cursor: nat, k: nat, n: nat): nat
    decreases k
  {
    if k == 0 then cursor else Advance(Next(cursor, n), k - 1, n)
  }

  /** The `k` values that `itertools.cycle(cycle)` yields next when it stands at `start`. */
  function Draws<T>(cycle: seq<T>, start: nat, k: nat): (r: seq<T>)
    requires start < |cycle|
    ensures |r| == k
    decreases k
  {
    if k == 0 then [] else [cycle[start]] + Draws(cycle, Next(start, |cycle|), k - 1)
  }

  /** `a + b` draws are `a` draws followed by `b` more from where those left off. */
  lemma {:induction false} DrawsSplit<T>(cycle: seq<T>, start: nat, a: nat, b: nat)
    requires start < |cycle|
    ensures Advance(start, a, |cycle|) < |cycle|
    ensures Draws(cycle, start, a + b) == Draws(cycle, start, a) + Draws(cycle, Advance(start, a, |cycle|), b)
    decreases a
  {
    if a > 0 {
      DrawsSplit(cycle, Next(start, |cycle|), a - 1, b);
    }
  }

  /** From `start`, the draws up to the end of the list are its tail, and the
      iterator then wraps round to the front. */
  lemma {:induction false} DrawsToEnd<T>(cycle: seq<T>, start: nat)
    requires start < |cycle|
    ensures Draws(cycle, start, |cycle| - start) == cycle[start..]
    ensures Advance(start, |cycle| - start, |cycle|) == 0
    decreases |cycle| - start
  {
    if start + 1 < |cycle| {
      DrawsToEnd(cycle, start + 1);
    }
  }

  /** From position 0, the first `k` draws are the first `k` elements. */
  lemma {:induction false} DrawsFromFront<T>(cycle: seq<T>, k: nat)
    requires 0 < |cycle| && k <= |cycle|
    ensures Draws(cycle, 0, k) == cycle[..k]
    ensures Advance(0, k, |cycle|) == if k == |cycle| then 0 else k
  {
    if k > 0 {
      DrawsFromFront(cycle, k - 1);
      DrawsSplit(cycle, 0, k - 1, 1);
      AdvanceSplit(0, k - 1, 1, |cycle|);
      assert cycle[..k] == cycle[..k - 1] + [cycle[k - 1]];
    }
  }

  /** `|cycle|` consecutive draws from `start` are the rotation of `cycle` at `start`. */
  lemma {:induction false} FullRoundIsRotation<T>(cycle: seq<T>, start: nat)
    requires start < |cycle|
    ensures Draws(cycle, start, |cycle|) == cycle[start..] + cycle[..start]
    ensures Advance(start, |cycle|, |cycle|) == start
  {
    var n := |cycle|;
    DrawsToEnd(cycle, start);
    DrawsSplit(cycle, start, n - start, start);
    DrawsFromFront(cycle, start);
    AdvanceSplit(start, n - start, start, n);
  }

  /** One full round of the cycle yields every element exactly as often as it
      occurs, and it ends where it started. */
  lemma {:induction false} FullRoundIsPermutation<T>(cycle: seq<T>, start: nat)
    requires start < |cycle|
    ensures multiset(Draws(cycle, start, |cycle|)) == multiset(cycle)
    ensures Advance(start, |cycle|, |cycle|) == start
  {
    FullRoundIsRotation(cycle, start);
    var tail, head := cycle[start..], cycle[..start];
    assert cycle == head + tail;
    assert multiset(cycle) == multiset(head) + multiset(tail);
    assert multiset(tail + head) == multiset(tail) + multiset(head);
  }

  /** From the front of the cycle, the draw after `q` full rounds and `p`
      more values is the element at position `p`. */
  lemma {:induction false} DrawsAt<T>(cycle: seq<T>, k: nat, q: nat, p: nat)
    requires p < |cycle| && q * |cycle| + p < k
    ensures Draws(cycle, 0, k)[q * |cycle| + p] == cycle[p]
    decreases q
  {
    var n := |cycle|;
    if k <= n {
      DrawsFromFront(cycle, k);
      assert q == 0;
    } else {
      DrawsSplit(cycle, 0, n, k - n);
      DrawsFromFront(cycle, n);
      if q == 0 {
        assert Draws(cycle, 0, k)[p] == Draws(cycle, 0, n)[p];
      } else {
        assert q * n + p - n == (q - 1) * n + p;
        DrawsAt(cycle, k - n, q - 1, p);
        assert Draws(cycle, 0, k)[q * n + p] == Draws(cycle, 0, k - n)[(q - 1) * n + p];
      }
    }
  }

  /** The `j`-th of the draws from the front of the cycle (the draws after
      `set_data`) is the element at position `j mod |cycle|`. */
  lemma DrawsCycleRound<T>(cycle: seq<T>, k: nat, j: nat)
    requires 0 < |cycle| && j < k
    ensures Draws(cycle, 0, k)[j] == cycle[j % |cycle|]
  {
    assert j == (j / |cycle|) * |cycle| + j % |cycle|;
    DrawsAt(cycle, k, j / |cycle|, j % |cycle|);
  }

  lemma {:induction false} AdvanceSplit(cursor: nat, a: nat, b: nat, n: nat)
    ensures Advance(cursor, a + b, n) == Advance(Advance(cursor, a, n), b, n)
    decreases a
  {
    if a > 0 {
      AdvanceSplit(Next(cursor, n), a - 1, b, n);
    }
  }

  /** Python's `hash_string(value) % len(pool)` indexing, with `None` hashed as `"_"`. */
  function HashedPick<T>(pool: seq<T>, value: Option<string>): (r: Result<T>)
    ensures r.Err? <==> |pool| == 0
    ensures r.Err? ==> r.error == ZeroDivisionError
    ensures r.Ok? ==> r.value in pool
  {
    if |pool| == 0 then Err(ZeroDivisionError)
    else Ok(pool[Hash(value.GetOr("_")) as int % |pool|])
  }

  /** `None` is hashed as the one-character string `"_"`. */
  lemma HashedPickOfNone<T>(pool: seq<T>)
    ensures HashedPick(pool, None) == HashedPick(pool, Some("_"))
  {
  }

  /** `BaseData`: a list of values and a shuffled copy of it that a
      `cycle` iterator walks round and round. */
  class Pool<T(==)> {
    var data: seq<T>
    /** The shuffled copy the iterator walks. */
    var cycle: seq<T>
    /** The position of the iterator in `cycle`. */
    var cursor: nat

    ghost predicate Valid()
      reads this
    {
      && |cycle| == |data|
      && multiset(cycle) == multiset(data)
      && (if |cycle| == 0 then cursor == 0 else cursor < |cycle|)
    }

    /** `__init__`: `set_data(get_data())`, with the subclass's data passed in. */
    constructor (d: seq<T>)
      ensures Valid() && data == d && multiset(cycle) == multiset(d) && cursor == 0
    {
      data, cycle, cursor := d, d, 0;
      new;
      SetData(d);
    }

    /** `has_items`. */
    predicate HasItems()
      reads this
      ensures Valid() ==> (HasItems() <==> |cycle| > 0)
    {
      |data| > 0
    }

    /** `set_data`: keep `d` and start a cycle over some permutation of it. */
    method SetData(d: seq<T>)
      modifies this
      ensures Valid() && data == d && multiset(cycle) == multiset(d) && cursor == 0
    {
      data := d;
      var shuffled: seq<T> :| multiset(shuffled) == multiset(d);
      assert |shuffled| == |multiset(shuffled)|;
      cycle := shuffled;
      cursor := 0;
    }

    /** `get_random_cycled`: the next value of the cycle, `None` when there is no data. */
    method GetRandomCycled() returns (r: Option<T>)
      requires Valid()
      modifies this
      ensures Valid() && data == old(data) && cycle == old(cycle)
      ensures |data| == 0 ==> r == None && cursor == old(cursor)
      ensures |data| > 0 ==> r == Some(cycle[old(cursor)]) && cursor == Next(old(cursor), |cycle|)
    {
      if HasItems() {
        r := Some(cycle[cursor]);
        cursor := Next(cursor, |cycle|);
      } else {
        r := None;
      }
    }

    /** `get_n`: `n` successive values of the cycle. */
    method GetN(n: nat) returns (r: seq<Option<T>>)
      requires Valid()
      modifies this
      ensures Valid() && data == old(data) && cycle == old(cycle) && |r| == n
      ensures |data| == 0 ==> forall k :: 0 <= k < n ==> r[k] == None
      ensures |data| > 0 ==> forall k :: 0 <= k < n ==> r[k] == Some(Draws(cycle, old(cursor), n)[k])
      ensures |data| > 0 ==> cursor == Advance(old(cursor), n, |cycle|)
    {
      r := [];
      var i := 0;
      while i < n
        invariant 0 <= i <= n && |r| == i
        invariant Valid() && data == old(data) && cycle == old(cycle)
        invariant |data| == 0 ==> forall k :: 0 <= k < i ==> r[k] == None
        invariant |data| > 0 ==> forall k :: 0 <= k < i ==> r[k] == Some(Draws(cycle, old(cursor), i)[k])
        invariant |data| > 0 ==> cursor == Advance(old(cursor), i, |cycle|)
      {
        if |data| > 0 {
          DrawsSplit(cycle, old(cursor), i, 1);
          AdvanceSplit(old(cursor), i, 1, |cycle|);
        }
        var x := GetRandomCycled();
        r := r + [x];
        i := i + 1;
      }
    }

    /** `get_hundred`. */
    method GetHundred() returns (r: seq<Option<T>>)
      requires Valid()
      modifies this
      ensures Valid() && data == old(data) && cycle == old(cycle) && |r| == 100
      ensures |data| == 0 ==> forall k :: 0 <= k < 100 ==> r[k] == None
      ensures |data| > 0 ==> forall k :: 0 <= k < 100 ==> r[k] == Some(Draws(cycle, old(cursor), 100)[k])
      ensures |data| > 0 ==> cursor == Advance(old(cursor), 100, |cycle|)
    {
      r := GetN(100);
    }

    /** `get_random`: some element of the data; `random.choice` raises on an empty list. */
    method GetRandom() returns (r: Result<T>)
      ensures r.Ok? <==> |data| > 0
      ensures r.Err? ==> r.error == IndexError
      ensures r.Ok? ==> r.value in data
    {
      if |data| == 0 {
        r := Err(IndexError);
      } else {
        assert data[0] in data;
        var x :| x in data;
        r := Ok(x);
      }
    }

    /** `remove_data`: drop every occurrence of `item` and reshuffle. */
    method RemoveData(item: T)
      modifies this
      ensures Valid() && data == DeleteFromList(old(data), item)
      ensures item !in data && multiset(cycle) == multiset(data) && cursor == 0
    {
      SetData(DeleteFromList(data, item));
    }

    /** `get_hashed`. */
    function GetHashed(value: Option<string>): (r: Result<T>)
      reads this
      ensures r.Err? <==> !HasItems()
      ensures r.Err? ==> r.error == ZeroDivisionError
      ensures r.Ok? ==> r.value in data
    {
      HashedPick(data, value)
    }
  }

  // ---------------------------------------------------------------------------
  // Weighted pools
  // ---------------------------------------------------------------------------

  /** `[x] * n`. */
  function Repeat<T>(x: T, n: nat): (r: seq<T>)
    ensures |r| == n
  {
    seq(n, _ => x)
  }

  /** Each value repeated by its weight, in the order of the entries. */
  function Weighted<T>(entries: seq<(T, nat)>): seq<T>
  {
    if entries == [] then [] else Repeat(entries[0].0, entries[0].1) + Weighted(entries[1..])
  }

  function TotalWeight<T>(entries: seq<(T, nat)>): nat
  {
    if entries == [] then 0 else entries[0].1 + TotalWeight(entries[1..])
  }

  /** The summed weight of the entries whose value is `x`. */
  function WeightOf<T(==)>(entries: seq<(T, nat)>, x: T): nat
  {
    if entries == [] then 0
    else (if entries[0].0 == x then entries[0].1 else 0) + WeightOf(entries[1..], x)
  }

  lemma {:induction false} RepeatShape<T>(x: T, n: nat)
    ensures multiset(Repeat(x, n)) == multiset{}[x := n]
    ensures forall i :: 0 <= i < n ==> Repeat(x, n)[i] == x
  {
    if n > 0 {
      var rest := Repeat(x, n - 1);
      RepeatShape(x, n - 1);
      assert Repeat(x, n) == rest + [x];
      assert multiset(Repeat(x, n)) == multiset(rest) + multiset{x};
    }
  }

  /** A weighted pool has the total weight as length and each value as often
      as its weights add up to. */
  lemma {:induction false} WeightedShape<T>(entries: seq<(T, nat)>, x: T)
    ensures |Weighted(entries)| == TotalWeight(entries)
    ensures multiset(Weighted(entries))[x] == WeightOf(entries, x)
  {
    if entries != [] {
      RepeatShape(entries[0].0, entries[0].1);
      WeightedShape(entries[1..], x);
    }
  }

  /** Weighted pools can be built entry by entry. */
  lemma {:induction false} WeightedSnoc<T>(entries: seq<(T, nat)>, i: nat)
    requires i < |entries|
    ensures Weighted(entries[..i + 1]) == Weighted(entries[..i]) + Repeat(entries[i].0, entries[i].1)
  {
    if i > 0 {
      assert entries[..i + 1][1..] == entries[1..][..i];
      assert entries[..i][1..] == entries[1..][..i - 1];
      WeightedSnoc(entries[1..], i - 1);
    } else {
      assert entries[..1] == [entries[0]];
    }
  }

  /** With pairwise different values, value `j` occurs exactly its own weight times. */
  lemma {:induction false} WeightOfDistinct<T>(entries: seq<(T, nat)>, j: nat)
    requires j < |entries|
    requires forall a, b :: 0 <= a < b < |entries| ==> entries[a].0 != entries[b].0
    ensures WeightOf(entries, entries[j].0) == entries[j].1
  {
    WeightOfAbsent(entries[j + 1..], entries[j].0);
    var e := entries[1..];
    if j > 0 {
      WeightOfDistinct(e, j - 1);
    } else {
      WeightOfAbsent(e, entries[0].0);
    }
  }

  lemma {:induction false} WeightOfAbsent<T>(entries: seq<(T, nat)>, x: T)
    requires forall a :: 0 <= a < |entries| ==> entries[a].0 != x
    ensures WeightOf(entries, x) == 0
  {
    if entries != [] {
      WeightOfAbsent(entries[1..], x);
    }
  }

  // ---------------------------------------------------------------------------
  // UserAgent
  // ---------------------------------------------------------------------------

  /** `get_correct_agent`: pick the agent of the running system, given the
      name `platform.system()` returns. */
  function CorrectAgent(system: string, windows: string, mac: string, linux: string): (r: string)
    ensures AsciiLower(system) == "windows" ==> r == windows
    ensures AsciiLower(system) == "darwin" ==> r == mac
    ensures AsciiLower(system) != "windows" && AsciiLower(system) != "darwin" ==> r == linux
  {
    var name := AsciiLower(system);
    if name == "windows" then windows else if name == "darwin" then mac else linux
  }

  const WINDOWS_PLATFORM: string := "Windows NT 10.0"
  const MAC_PLATFORM: string := "Macintosh; Intel Mac OS X 10_15"
  const LINUX_PLATFORM: string := "X11; Linux x86_64"

  /** `UserAgent.versions`: each Chrome major version with its weight, in dict order. */
  const VERSIONS: seq<(string, nat)> := [
    ("106", 37), ("105", 42), ("104", 2), ("103", 2), ("101", 1), ("99", 10),
    ("100", 1), ("98", 1), ("97", 1), ("96", 1), ("95", 1), ("94", 1)
  ]

  /** What follows `Chrome/<version>.` in `UserAgent.user_agents[version]`. */
  const CHROME_BUILDS: map<string, string> := map[
    "106" := "0.0.0 Safari/537.37",
    "105" := "0.0.0 Safari/537.36",
    "104" := "0.5112.102 Safari/537.36",
    "103" := "0.5060.53 Safari/537.36",
    "101" := "0.4951 Safari/537.36",
    "100" := "0.4896 Safari/537.36",
    "99" := "0.4844 Safari/537.36",
    "98" := "0.4758 Safari/537.36",
    "97" := "0.4692 Safari/537.36",
    "96" := "0.4664 Safari/537.36",
    "95" := "0.4638 Safari/537.36",
    "94" := "0.4606 Safari/537.36"
  ]

  function AgentHead(platform: string): string
  {
    "Mozilla/5.0 (" + platform + ") AppleWebKit/537.36 (KHTML, like Gecko) Chrome/"
  }

  /** `user_agents[version]`, whose platform is "Windows NT 10.0", after
      `.replace("Windows NT 10.0", platform)`. */
  function AgentString(platform: string, version: string): string
    requires version in CHROME_BUILDS
  {
    AgentHead(platform) + version + "." + CHROME_BUILDS[version]
  }

  /** The platform `get_correct_agent` ends up choosing for `system`. */
  function PlatformOf(system: string): string
  {
    CorrectAgent(system, WINDOWS_PLATFORM, MAC_PLATFORM, LINUX_PLATFORM)
  }

  lemma VersionsKnown()
    ensures forall i :: 0 <= i < |VERSIONS| ==> VERSIONS[i].0 in CHROME_BUILDS && '.' !in VERSIONS[i].0
  {
  }

  /** The (agent, weight) pairs `UserAgent.get_data` expands, in order. */
  function AgentWeights(system: string): (r: seq<(string, nat)>)
    ensures |r| == |VERSIONS|
  {
    VersionsKnown();
    seq(|VERSIONS|, i requires 0 <= i < |VERSIONS| =>
      var version := VERSIONS[i].0;
      (CorrectAgent(system, AgentString(WINDOWS_PLATFORM, version),
                    AgentString(MAC_PLATFORM, version), AgentString(LINUX_PLATFORM, version)),
       VERSIONS[i].1))
  }

  /** `UserAgent.get_data`: each version's agent for this system, repeated by its weight. */
  method UserAgentData(system: string) returns (result: seq<string>)
    ensures result == Weighted(AgentWeights(system))
  {
    var entries := AgentWeights(system);
    result := [];
    var i := 0;
    while i < |VERSIONS|
      invariant 0 <= i <= |VERSIONS|
      invariant result == Weighted(entries[..i])
    {
      VersionsKnown();
      var version := VERSIONS[i].0;
      var agent := CorrectAgent(system, AgentString(WINDOWS_PLATFORM, version),
                                AgentString(MAC_PLATFORM, version), AgentString(LINUX_PLATFORM, version));
      WeightedSnoc(entries, i);
      result := result + Repeat(agent, VERSIONS[i].1);
      i := i + 1;
    }
    assert entries[..|VERSIONS|] == entries;
  }

  /** Agents of different versions differ, whatever the platform. */
  lemma AgentStringInjective(platform: string, v1: string, v2: string)
    requires v1 in CHROME_BUILDS && v2 in CHROME_BUILDS && '.' !in v1 && '.' !in v2
    requires AgentString(platform, v1) == AgentString(platform, v2)
    ensures v1 == v2
  {
    var n := |AgentHead(platform)|;
    var a, b := AgentString(platform, v1), AgentString(platform, v2);
    assert a[n..] == v1 + "." + CHROME_BUILDS[v1];
    assert b[n..] == v2 + "." + CHROME_BUILDS[v2];
    BeforeFirstOfJoined(v1, '.', CHROME_BUILDS[v1]);
    BeforeFirstOfJoined(v2, '.', CHROME_BUILDS[v2]);
  }

  lemma VersionsDistinct()
    ensures forall a, b :: 0 <= a < b < |VERSIONS| ==> VERSIONS[a].0 != VERSIONS[b].0
  {
  }

  /** Entry `i` of the pool recipe is version `i`'s agent on the chosen platform. */
  lemma AgentWeightsPlatform(system: string, i: nat)
    requires i < |VERSIONS|
    ensures VERSIONS[i].0 in CHROME_BUILDS
    ensures AgentWeights(system)[i] == (AgentString(PlatformOf(system), VERSIONS[i].0), VERSIONS[i].1)
  {
    VersionsKnown();
  }

  /** The user-agent pool has 100 entries, and the agent of each version
      occurs exactly as often as that version's weight. */
  lemma UserAgentDataShape(system: string)
    ensures |Weighted(AgentWeights(system))| == 100
    ensures forall i :: 0 <= i < |VERSIONS| ==>
      VERSIONS[i].0 in CHROME_BUILDS &&
      AgentWeights(system)[i].0 == AgentString(PlatformOf(system), VERSIONS[i].0) &&
      multiset(Weighted(AgentWeights(system)))[AgentWeights(system)[i].0] == VERSIONS[i].1
  {
    UserAgentPoolSize(system);
    forall i | 0 <= i < |VERSIONS|
      ensures VERSIONS[i].0 in CHROME_BUILDS
      ensures AgentWeights(system)[i].0 == AgentString(PlatformOf(system), VERSIONS[i].0)
      ensures multiset(Weighted(AgentWeights(system)))[AgentWeights(system)[i].0] == VERSIONS[i].1
    {
      UserAgentCount(system, i);
    }
  }

  /** The user-agent pool has 100 entries. */
  lemma UserAgentPoolSize(system: string)
    ensures |Weighted(AgentWeights(system))| == 100
  {
    var e := AgentWeights(system);
    forall i | 0 <= i < |e| ensures e[i].1 == VERSIONS[i].1 {
      AgentWeightsPlatform(system, i);
    }
    WeightedShape(e, e[0].0);
    TotalWeightOfAgents(e);
  }

  /** Version `i`'s agent occurs in the pool exactly as often as its weight. */
  lemma UserAgentCount(system: string, i: nat)
    requires i < |VERSIONS|
    ensures VERSIONS[i].0 in CHROME_BUILDS
    ensures AgentWeights(system)[i].0 == AgentString(PlatformOf(system), VERSIONS[i].0)
    ensures multiset(Weighted(AgentWeights(system)))[AgentWeights(system)[i].0] == VERSIONS[i].1
  {
    AgentWeightsPlatform(system, i);
    AgentWeightsDistinct(system);
    CountOfDistinct(AgentWeights(system), i);
  }

  /** In a weighted pool whose values are pairwise different, each value
      occurs exactly its weight's number of times. */
  lemma CountOfDistinct<T>(entries: seq<(T, nat)>, j: nat)
    requires j < |entries|
    requires forall a, b :: 0 <= a < b < |entries| ==> entries[a].0 != entries[b].0
    ensures multiset(Weighted(entries))[entries[j].0] == entries[j].1
  {
    WeightedShape(entries, entries[j].0);
    WeightOfDistinct(entries, j);
  }

  /** On any platform, the agents of the pool recipe are pairwise different. */
  lemma AgentWeightsDistinct(system: string)
    ensures forall a, b :: 0 <= a < b < |VERSIONS| ==> AgentWeights(system)[a].0 != AgentWeights(system)[b].0
  {
    forall a, b | 0 <= a < b < |VERSIONS|
      ensures AgentWeights(system)[a].0 != AgentWeights(system)[b].0
    {
      AgentPairDistinct(system, a, b);
    }
  }

  lemma AgentPairDistinct(system: string, a: nat, b: nat)
    requires a < b < |VERSIONS|
    ensures AgentWeights(system)[a].0 != AgentWeights(system)[b].0
  {
    AgentWeightsPlatform(system, a);
    AgentWeightsPlatform(system, b);
    VersionsKnown();
    if AgentWeights(system)[a].0 == AgentWeights(system)[b].0 {
      AgentStringInjective(PlatformOf(system), VERSIONS[a].0, VERSIONS[b].0);
      VersionsDistinct();
      assert false;
    }
  }

  lemma TotalWeightOfAgents(e: seq<(string, nat)>)
    requires |e| == |VERSIONS| && forall i :: 0 <= i < |e| ==> e[i].1 == VERSIONS[i].1
    ensures TotalWeight(e) == 100
  {
    SameWeights(e, VERSIONS);
    VersionsWeight();
  }

  /** The version weights, summed from the last version back to the first. */
  lemma VersionsWeight()
    ensures TotalWeight(VERSIONS) == 100
  {
    assert TotalWeight(VERSIONS[12..]) == 0;
    assert VERSIONS[11..][1..] == VERSIONS[12..];
    assert TotalWeight(VERSIONS[11..]) == 1;
    assert VERSIONS[10..][1..] == VERSIONS[11..];
    assert TotalWeight(VERSIONS[10..]) == 2;
    assert VERSIONS[9..][1..] == VERSIONS[10..];
    assert TotalWeight(VERSIONS[9..]) == 3;
    assert VERSIONS[8..][1..] == VERSIONS[9..];
    assert TotalWeight(VERSIONS[8..]) == 4;
    assert VERSIONS[7..][1..] == VERSIONS[8..];
    assert TotalWeight(VERSIONS[7..]) == 5;
    assert VERSIONS[6..][1..] == VERSIONS[7..];
    assert TotalWeight(VERSIONS[6..]) == 6;
    assert VERSIONS[5..][1..] == VERSIONS[6..];
    assert TotalWeight(VERSIONS[5..]) == 16;
    assert VERSIONS[4..][1..] == VERSIONS[5..];
    assert TotalWeight(VERSIONS[4..]) == 17;
    assert VERSIONS[3..][1..] == VERSIONS[4..];
    assert TotalWeight(VERSIONS[3..]) == 19;
    assert VERSIONS[2..][1..] == VERSIONS[3..];
    assert TotalWeight(VERSIONS[2..]) == 21;
    assert VERSIONS[1..][1..] == VERSIONS[2..];
    assert TotalWeight(VERSIONS[1..]) == 63;
    assert VERSIONS[0..][1..] == VERSIONS[1..];
    assert TotalWeight(VERSIONS[0..]) == 100;
    assert VERSIONS[0..] == VERSIONS;
  }

  /** The total weight depends on the weights alone. */
  lemma {:induction false} SameWeights<T, U>(e: seq<(T, nat)>, f: seq<(U, nat)>)
    requires |e| == |f| && forall i :: 0 <= i < |e| ==> e[i].1 == f[i].1
    ensures TotalWeight(e) == TotalWeight(f)
  {
    if e != [] {
      SameWeights(e[1..], f[1..]);
    }
  }

  // ---------------------------------------------------------------------------
  // WindowSize
  // ---------------------------------------------------------------------------

  /** A `[width, height]` pair of the window-size pool. */
  datatype Size = Size(width: nat, height: nat)

  /** `WindowSize.get_data`: the six desktop resolutions repeated by their
      weights and concatenated, largest share first. */
  function WindowSizeData(): seq<Size>
  {
    Repeat(Size(1920, 1080), 35) + Repeat(Size(1366, 768), 26) + Repeat(Size(1536, 864), 16)
    + Repeat(Size(1280, 720), 9) + Repeat(Size(1440, 900), 9) + Repeat(Size(1600, 900), 5)
  }

  /** The window-size pool has 100 entries in contiguous blocks of 35, 26,
      16, 9, 9 and 5. */
  lemma WindowSizeDataShape()
    ensures |WindowSizeData()| == 100
    ensures forall i :: 0 <= i < 35 ==> WindowSizeData()[i] == Size(1920, 1080)
    ensures forall i :: 35 <= i < 61 ==> WindowSizeData()[i] == Size(1366, 768)
    ensures forall i :: 61 <= i < 77 ==> WindowSizeData()[i] == Size(1536, 864)
    ensures forall i :: 77 <= i < 86 ==> WindowSizeData()[i] == Size(1280, 720)
    ensures forall i :: 86 <= i < 95 ==> WindowSizeData()[i] == Size(1440, 900)
    ensures forall i :: 95 <= i < 100 ==> WindowSizeData()[i] == Size(1600, 900)
  {
    RepeatShape(Size(1920, 1080), 35);
    RepeatShape(Size(1366, 768), 26);
    RepeatShape(Size(1536, 864), 16);
    RepeatShape(Size(1280, 720), 9);
    RepeatShape(Size(1440, 900), 9);
    RepeatShape(Size(1600, 900), 5);
  }

  /** `window_size_to_string`: the pair written as "width,height". */
  function SizeString(size: Size): string
  {
    NatToString(size.width) + "," + NatToString(size.height)
  }

  /** Splitting the text at its comma gives the pair back. */
  lemma SizeStringRoundTrip(size: Size)
    ensures var text := SizeString(size);
      var w, h := BeforeFirst(text, ','), AfterLast(text, ',');
      AllDigits(w) && AllDigits(h) && ParseNat(w) == size.width && ParseNat(h) == size.height
  {
    var w, h := NatToString(size.width), NatToString(size.height);
    assert ',' !in w && ',' !in h by {
      assert forall i :: 0 <= i < |w| ==> w[i] != ',';
      assert forall i :: 0 <= i < |h| ==> h[i] != ',';
    }
    assert SizeString(size) == w + [','] + h;
    BeforeFirstOfJoined(w, ',', h);
    AfterLastOfJoined(w, ',', h);
    ParseNatToString(size.width);
    ParseNatToString(size.height);
  }

  /** The window size `_configure_chrome` ends up with: the text after `=`
      in a caller's flag, or a pair drawn from the window-size pool. */
  datatype SizeValue = SizeText(text: string) | Dims(size: Size)

  /** `_configure_chrome` turns a non-text window size into text by calling
      `windows_size.to_string`, a method `WindowSize` does not have. */
  function WindowSizeStringAsWritten(v: SizeValue): (r: Result<string>)
    ensures r.Ok? <==> v.SizeText?
    ensures v.SizeText? ==> r.value == v.text
    ensures v.Dims? ==> r.error == AttributeError
  {
    match v
    case SizeText(t) => Ok(t)
    case Dims(_) => Err(AttributeError)
  }

  /** As written, every window size that comes from the pool fails, so a
      known profile, or no window size in the caller's flags, always ends in
      `AttributeError`. */
  lemma PoolSizeFailsAsWritten(profile: Option<string>)
    ensures HashedPick(WindowSizeData(), profile).Ok?
    ensures WindowSizeStringAsWritten(Dims(HashedPick(WindowSizeData(), profile).value)) == Err(AttributeError)
    ensures forall s :: s in WindowSizeData() ==> WindowSizeStringAsWritten(Dims(s)).Err?
  {
    WindowSizeDataShape();
  }

  /** The window-size text as evidently intended: text is kept, and a pair
      is written by `window_size_to_string`. */
  function WindowSizeString(v: SizeValue): (r: string)
    ensures v.SizeText? ==> r == v.text
    ensures v.Dims? ==>
      AllDigits(BeforeFirst(r, ',')) && AllDigits(AfterLast(r, ',')) &&
      ParseNat(BeforeFirst(r, ',')) == v.size.width && ParseNat(AfterLast(r, ',')) == v.size.height
  {
    match v
    case SizeText(t) => t
    case Dims(size) =>
      SizeStringRoundTrip(size);
      SizeString(size)
  }
}

