/**
 * Selection of the entertainment configuration to stream to: the first
 * configuration, in the catalog's iteration order, whose key equals the
 * requested name ignoring case.
 */
module AreaSelection {
  import opened Wrappers

  /** An entertainment configuration; only its channel list (one channel per light) matters here. */
  datatype EntertainmentConfig = EntertainmentConfig(channels: seq<nat>)

  /** The outcome of a successful selection: the configuration and the name reported for it. */
  datatype Selection = Selection(config: EntertainmentConfig, areaName: string)

  predicate IsUpper(c: char)
  {
    'A' <= c <= 'Z'
  }

  /** A capital becomes the letter 32 code points above it, the small letter; any other character is kept. */
  function LowerChar(c: char): (d: char)
    ensures IsUpper(c) ==> d as int == c as int + 32
    ensures !IsUpper(c) ==> d == c
    ensures !IsUpper(d)
  {
    if IsUpper(c) then (c as int - 'A' as int + 'a' as int) as char else c
  }

  /**
   * `str.lower()`, restricted to ASCII letters: no capital is left, every
   * other character stays where it was, and each capital becomes its small letter.
   */
  function Lower(s: string): (t: string)
    ensures |t| == |s|
    ensures forall i :: 0 <= i < |t| ==> !IsUpper(t[i])
    ensures forall i :: 0 <= i < |s| && !IsUpper(s[i]) ==> t[i] == s[i]
    ensures forall i :: 0 <= i < |s| && IsUpper(s[i]) ==> t[i] as int == s[i] as int + 32
  {
    seq(|s|, i requires 0 <= i < |s| => LowerChar(s[i]))
  }

  /** The match test of the selection loop. */
  predicate KeyMatches(key: string, requested: string)
  {
    Lower(key) == Lower(requested)
  }

  /** Index `i` holds the first key of `configs` that matches `requested`. */
  ghost predicate IsFirstMatch(configs: seq<(string, EntertainmentConfig)>, requested: string, i: int)
  {
    && 0 <= i < |configs|
    && KeyMatches(configs[i].0, requested)
    && forall j :: 0 <= j < i ==> !KeyMatches(configs[j].0, requested)
  }

  /**
   * The loop of the bridge constructor. It stops at the first key that matches;
   * the area name it records is the requested string, not the key. The loop's
   * second test repeats the first one word for word and so can never fire; it
   * has no counterpart here.
   */
  method SelectArea(configs: seq<(string, EntertainmentConfig)>, requested: string)
    returns (r: Option<Selection>)
    ensures r.None? <==> forall i :: 0 <= i < |configs| ==> !KeyMatches(configs[i].0, requested)
    ensures r.Some? ==> r.value.areaName == requested
    ensures r.Some? ==> exists i :: IsFirstMatch(configs, requested, i) && r.value.config == configs[i].1
  {
    r := None;
    var lowered := Lower(requested);
    var n := 0;
    while n < |configs|
      invariant 0 <= n <= |configs|
      invariant forall j :: 0 <= j < n ==> !KeyMatches(configs[j].0, requested)
    {
      var (areaId, config) := configs[n];
      if Lower(areaId) == lowered {
        r := Some(Selection(config, requested));
        assert IsFirstMatch(configs, requested, n);
        return;
      }
      n := n + 1;
    }
  }

  /** Lowercasing is idempotent. */
  lemma LowerIdempotent(s: string)
    ensures Lower(Lower(s)) == Lower(s)
  {
    assert forall i :: 0 <= i < |s| ==> LowerChar(LowerChar(s[i])) == LowerChar(s[i]);
  }

  /** Matching ignores the case of the requested name: asking in lower case selects the same area. */
  lemma MatchIgnoresCase(key: string, requested: string)
    ensures KeyMatches(key, Lower(requested)) <==> KeyMatches(key, requested)
  {
    LowerIdempotent(requested);
  }

  /** Matching is exact up to case: a prefix or any name of another length never matches. */
  lemma MatchIsExact(key: string, requested: string)
    requires KeyMatches(key, requested)
    ensures |key| == |requested|
  {
    assert |Lower(key)| == |Lower(requested)|;
  }
}
