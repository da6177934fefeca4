/**
 * The per-packet translation of an E1.31 DMX payload into per-light colour
 * pushes for the Hue Entertainment stream: light `idx` reads channels
 * `3*idx`, `3*idx+1`, `3*idx+2` as red, green and blue and is skipped when the
 * payload is too short to hold them.
 */
module Translator {

  /** A DMX channel value. */
  predicate IsByte(x: int)
  {
    0 <= x <= 255
  }

  predicate AllBytes(dmx: seq<int>)
  {
    forall i :: 0 <= i < |dmx| ==> IsByte(dmx[i])
  }

  /** One `set_input` tuple: normalised red, green, blue and the light index. */
  datatype Push = Push(r: real, g: real, b: real, idx: nat)

  function Min(a: nat, b: nat): nat
  {
    if a <= b then a else b
  }

  /** Channel byte to intensity: exact division by 255 (the float rounding of the source is not modelled). */
  function Normalize(x: int): (v: real)
    ensures v * 255.0 == x as real
    ensures IsByte(x) ==> 0.0 <= v <= 1.0
    ensures x == 0 ==> v == 0.0
    ensures x == 255 ==> v == 1.0
  {
    x as real / 255.0
  }

  /** Whether the payload holds the full three-channel block of light `idx`. */
  predicate Covers(dmx: seq<int>, idx: nat)
  {
    3 * idx + 3 <= |dmx|
  }

  /** The push for light `idx`, read from its channel block. */
  function LightPush(dmx: seq<int>, idx: nat): Push
    requires Covers(dmx, idx)
  {
    Push(Normalize(dmx[3 * idx]), Normalize(dmx[3 * idx + 1]), Normalize(dmx[3 * idx + 2]), idx)
  }

  /**
   * The pushes produced for one packet by visiting lights 0 .. numLights-1 in
   * order and skipping every light whose block the payload does not cover.
   */
  function Translate(dmx: seq<int>, numLights: nat): seq<Push>
  {
    if numLights == 0 then []
    else
      Translate(dmx, numLights - 1)
      + (if Covers(dmx, numLights - 1) then [LightPush(dmx, numLights - 1)] else [])
  }

  /**
   * Closed form of a packet's translation: exactly min(numLights, |dmx| / 3)
   * pushes, the k-th being light k read from its own channel block.
   */
  lemma {:induction false} TranslateClosedForm(dmx: seq<int>, numLights: nat)
    ensures |Translate(dmx, numLights)| == Min(numLights, |dmx| / 3)
    ensures forall k :: 0 <= k < |Translate(dmx, numLights)| ==>
              Covers(dmx, k) && Translate(dmx, numLights)[k] == LightPush(dmx, k)
  {
    if numLights > 0 {
      TranslateClosedForm(dmx, numLights - 1);
      var n := numLights - 1;
      if Covers(dmx, n) {
        assert n < |dmx| / 3;
      } else {
        assert |dmx| / 3 <= n;
      }
    }
  }

  /** A light gets a push in a packet iff it is configured and its block is present. */
  lemma PushedIffCovered(dmx: seq<int>, numLights: nat, idx: nat)
    ensures (exists k :: 0 <= k < |Translate(dmx, numLights)| && Translate(dmx, numLights)[k].idx == idx)
            <==> (idx < numLights && Covers(dmx, idx))
  {
    TranslateClosedForm(dmx, numLights);
    var t := Translate(dmx, numLights);
    if idx < numLights && Covers(dmx, idx) {
      assert idx < |dmx| / 3;
      assert t[idx].idx == idx;
    }
  }

  /** Pushes of one packet carry strictly ascending light indices, so no light is pushed twice. */
  lemma PushesAscending(dmx: seq<int>, numLights: nat)
    ensures forall i, j :: 0 <= i < j < |Translate(dmx, numLights)| ==>
              Translate(dmx, numLights)[i].idx < Translate(dmx, numLights)[j].idx
  {
    TranslateClosedForm(dmx, numLights);
  }

  /** Every component pushed for a payload of bytes lies in [0, 1]. */
  lemma PushesInUnitRange(dmx: seq<int>, numLights: nat)
    requires AllBytes(dmx)
    ensures forall p :: p in Translate(dmx, numLights) ==>
              0.0 <= p.r <= 1.0 && 0.0 <= p.g <= 1.0 && 0.0 <= p.b <= 1.0
  {
    TranslateClosedForm(dmx, numLights);
    var t := Translate(dmx, numLights);
    forall p | p in t
      ensures 0.0 <= p.r <= 1.0 && 0.0 <= p.g <= 1.0 && 0.0 <= p.b <= 1.0
    {
      var k :| 0 <= k < |t| && t[k] == p;
      assert IsByte(dmx[3 * k]) && IsByte(dmx[3 * k + 1]) && IsByte(dmx[3 * k + 2]);
    }
  }

  /** A payload of exactly three channels per light yields one push per light, in order. */
  lemma FullFrame(dmx: seq<int>, numLights: nat)
    requires |dmx| == 3 * numLights
    ensures |Translate(dmx, numLights)| == numLights
    ensures forall k :: 0 <= k < numLights ==> Translate(dmx, numLights)[k].idx == k
  {
    TranslateClosedForm(dmx, numLights);
  }

  /** Two lights, six bytes: red on light 0, green on light 1. */
  lemma TwoLightExample()
    ensures Translate([255, 0, 0, 0, 255, 0], 2) == [Push(1.0, 0.0, 0.0, 0), Push(0.0, 1.0, 0.0, 1)]
  {
  }
}
