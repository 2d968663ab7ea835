/**
 * The state the popup's injected functions keep in a page: its media
 * elements, the gain node each boosted element has (`el._boosterGainNode`),
 * and the speed-enforcement interval (`window.__speedIntervalId`).
 */
module MediaPage {

  datatype Tag = Video | Audio

  /**
   * Where an element's media comes from, as `el.currentSrc || el.src || ""`
   * and `new URL(src, location.href)` classify it against the page's origin.
   */
  datatype Source = NoSrc | BlobUrl | SameOrigin | CrossOrigin | Unparsable

  /** A `video` or `audio` element; `id` stands for the element's identity. */
  datatype Media = Media(
    id: nat,
    tag: Tag,
    source: Source,
    volume: real,
    playbackRate: real,
    defaultPlaybackRate: real,
    muted: bool)

  const MaxBoost: real := 100.0

  /** `Math.min(level, MAX_BOOST)` */
  function Cap(level: real): (g: real)
    ensures g <= level && g <= MaxBoost
    ensures g == level || g == MaxBoost
  {
    if level < MaxBoost then level else MaxBoost
  }

  /** A gain node may be built for an element with no source, a `blob:` source, or a source of the page's own origin. */
  predicate MayAttach(src: Source) {
    src == NoSrc || src == BlobUrl || src == SameOrigin
  }

  // ---- playback rate ----

  /** `video.playbackRate = rate; video.defaultPlaybackRate = rate` for videos; audio elements are not selected. */
  function WithRate(el: Media, rate: real): Media {
    if el.tag == Video then el.(playbackRate := rate, defaultPlaybackRate := rate) else el
  }

  function WithVideoRate(ms: seq<Media>, rate: real): (r: seq<Media>)
    ensures |r| == |ms|
    ensures forall i :: 0 <= i < |ms| ==> r[i] == WithRate(ms[i], rate)
  {
    seq(|ms|, i requires 0 <= i < |ms| => WithRate(ms[i], rate))
  }

  // ---- volume boost ----

  /** What every element gets before its gain is handled: `volume = 1`, `playbackRate = 1`, `muted = false`. */
  function Unboosted(el: Media): Media {
    el.(volume := 1.0, playbackRate := 1.0, muted := false)
  }

  function UnboostedAll(ms: seq<Media>): (r: seq<Media>)
    ensures |r| == |ms|
    ensures forall i :: 0 <= i < |ms| ==> r[i] == Unboosted(ms[i])
  {
    seq(|ms|, i requires 0 <= i < |ms| => Unboosted(ms[i]))
  }

  /** One `forEach` step of `setVideoVolumeBoost` on the gain table: reuse the node, or build one if the source allows it. */
  function BoostStep(g: map<nat, real>, el: Media, level: real): map<nat, real> {
    if el.id in g then g[el.id := Cap(level)]
    else if MayAttach(el.source) then g[el.id := Cap(level)]
    else g
  }

  /** The gain table after `setVideoVolumeBoost(level)` visits `ms` in document order. */
  function BoostAll(g: map<nat, real>, ms: seq<Media>, level: real): map<nat, real>
    decreases |ms|
  {
    if ms == [] then g else BoostStep(BoostAll(g, ms[..|ms| - 1], level), ms[|ms| - 1], level)
  }

  function Ids(ms: seq<Media>): set<nat> {
    set i | 0 <= i < |ms| :: ms[i].id
  }

  function AttachableIds(ms: seq<Media>): set<nat> {
    set i | 0 <= i < |ms| && MayAttach(ms[i].source) :: ms[i].id
  }

  lemma IdsOfPrefix(ms: seq<Media>)
    requires ms != []
    ensures Ids(ms) == Ids(ms[..|ms| - 1]) + {ms[|ms| - 1].id}
    ensures AttachableIds(ms) == AttachableIds(ms[..|ms| - 1])
                                 + (if MayAttach(ms[|ms| - 1].source) then {ms[|ms| - 1].id} else {})
  {
  }

  /**
   * The gain table after a boost: an element that had a node keeps that one
   * node; an element without one gains a node exactly when its source allows
   * it; every node of a visited element holds `min(level, MAX_BOOST)`; the
   * entries of elements not visited are unchanged.
   */
  lemma {:induction false} BoostAllTable(g: map<nat, real>, ms: seq<Media>, level: real)
    ensures BoostAll(g, ms, level).Keys == g.Keys + AttachableIds(ms)
    ensures forall id :: id in Ids(ms) && id in BoostAll(g, ms, level) ==> BoostAll(g, ms, level)[id] == Cap(level)
    ensures forall id :: id !in Ids(ms) && id in g ==> BoostAll(g, ms, level)[id] == g[id]
    decreases |ms|
  {
    if ms != [] {
      var init := ms[..|ms| - 1];
      BoostAllTable(g, init, level);
      IdsOfPrefix(ms);
    }
  }

  /** The node one `forEach` step builds: only in the branch past the reuse check, when the source allows it. */
  function BuiltStep(g: map<nat, real>, el: Media): seq<nat> {
    if el.id !in g && MayAttach(el.source) then [el.id] else []
  }

  /** The elements, in order, whose gain node `setVideoVolumeBoost(level)` builds while visiting `ms`. */
  function BuiltAll(g: map<nat, real>, ms: seq<Media>, level: real): seq<nat>
    decreases |ms|
  {
    if ms == [] then []
    else BuiltAll(g, ms[..|ms| - 1], level) + BuiltStep(BoostAll(g, ms[..|ms| - 1], level), ms[|ms| - 1])
  }

  predicate NoDuplicates(s: seq<nat>) {
    forall i, j :: 0 <= i < j < |s| ==> s[i] != s[j]
  }

  /**
   * A boost builds a node exactly for the attachable elements that had none,
   * each once, and every node it builds is in the table afterwards.
   */
  lemma {:induction false} BuiltAllOnce(g: map<nat, real>, ms: seq<Media>, level: real)
    ensures NoDuplicates(BuiltAll(g, ms, level))
    ensures forall id :: id in BuiltAll(g, ms, level) <==> id in AttachableIds(ms) && id !in g
    ensures forall id :: id in BuiltAll(g, ms, level) ==> id in BoostAll(g, ms, level)
    decreases |ms|
  {
    if ms != [] {
      var init, last := ms[..|ms| - 1], ms[|ms| - 1];
      BuiltAllOnce(g, init, level);
      BoostAllTable(g, init, level);
      BoostAllTable(g, ms, level);
      IdsOfPrefix(ms);
      var before := BuiltAll(g, init, level);
      var step := BuiltStep(BoostAll(g, init, level), last);
      assert BuiltAll(g, ms, level) == before + step;
      assert forall id :: id in step ==> id !in before;
    }
  }

  /** A boost of elements that all have a node, or cannot get one, builds nothing. */
  lemma {:induction false} BuiltNothingWhenAttached(g: map<nat, real>, ms: seq<Media>, level: real)
    requires AttachableIds(ms) <= g.Keys
    ensures BuiltAll(g, ms, level) == []
    decreases |ms|
  {
    if ms != [] {
      var init := ms[..|ms| - 1];
      IdsOfPrefix(ms);
      BuiltNothingWhenAttached(g, init, level);
      BoostAllTable(g, init, level);
    }
  }

  /** One more element of the prefix adds one boost step and what that step builds. */
  lemma BoostPrefixStep(g: map<nat, real>, ms: seq<Media>, i: nat, level: real)
    requires i < |ms|
    ensures BoostAll(g, ms[..i + 1], level) == BoostStep(BoostAll(g, ms[..i], level), ms[i], level)
    ensures BuiltAll(g, ms[..i + 1], level) == BuiltAll(g, ms[..i], level) + BuiltStep(BoostAll(g, ms[..i], level), ms[i])
  {
    assert ms[..i + 1][..i] == ms[..i];
  }

  /** A log of built nodes that is free of repeats stays so when a boost appends what it builds. */
  lemma AppendBuiltOnce(built: seq<nat>, g: map<nat, real>, ms: seq<Media>, level: real)
    requires NoDuplicates(built) && forall i :: 0 <= i < |built| ==> built[i] in g
    ensures var all := built + BuiltAll(g, ms, level);
      && NoDuplicates(all)
      && forall i :: 0 <= i < |all| ==> all[i] in BoostAll(g, ms, level)
  {
    BuiltAllOnce(g, ms, level);
    BoostAllTable(g, ms, level);
    var b := BuiltAll(g, ms, level);
    var all := built + b;
    forall i, j | 0 <= i < j < |all| ensures all[i] != all[j] {
      if j >= |built| && i < |built| {
        assert all[j] == b[j - |built|] && all[j] in b;
      } else if i >= |built| {
        assert all[i] == b[i - |built|] && all[j] == b[j - |built|];
      }
    }
    forall i | 0 <= i < |all| ensures all[i] in BoostAll(g, ms, level) {
      if i >= |built| {
        assert all[i] == b[i - |built|] && all[i] in b;
      }
    }
  }

  /**
   * Boosting the same elements again builds no node (the second call finds a
   * node wherever the first built one, so every element takes the reuse
   * branch or is skipped) and leaves the table the second level alone decides.
   */
  lemma BoostTwiceReusesNodes(g: map<nat, real>, ms: seq<Media>, first: real, second: real)
    ensures BuiltAll(BoostAll(g, ms, first), ms, second) == []
    ensures BoostAll(BoostAll(g, ms, first), ms, second).Keys == BoostAll(g, ms, first).Keys
    ensures BoostAll(BoostAll(g, ms, first), ms, second) == BoostAll(g, ms, second)
  {
    var once := BoostAll(g, ms, first);
    BoostAllTable(g, ms, first);
    BuiltNothingWhenAttached(once, ms, second);
    BoostAllTable(once, ms, second);
    BoostAllTable(g, ms, second);
    var twice, direct := BoostAll(once, ms, second), BoostAll(g, ms, second);
    forall id | id in twice
      ensures id in direct && twice[id] == direct[id]
    {
      if id !in Ids(ms) {
        assert twice[id] == once[id] == g[id] == direct[id];
      }
    }
  }

  // ---- disableBooster ----

  /** One `forEach` step of `disableBooster`: an existing node is reset to gain 1. */
  function ResetStep(g: map<nat, real>, el: Media): map<nat, real> {
    if el.id in g then g[el.id := 1.0] else g
  }

  function ResetAll(g: map<nat, real>, ms: seq<Media>): map<nat, real>
    decreases |ms|
  {
    if ms == [] then g else ResetStep(ResetAll(g, ms[..|ms| - 1]), ms[|ms| - 1])
  }

  /** The reset builds no node, sets every node of a visited element to 1, and leaves the others alone. */
  lemma {:induction false} ResetAllTable(g: map<nat, real>, ms: seq<Media>)
    ensures ResetAll(g, ms).Keys == g.Keys
    ensures forall id :: id in Ids(ms) && id in g ==> ResetAll(g, ms)[id] == 1.0
    ensures forall id :: id !in Ids(ms) && id in g ==> ResetAll(g, ms)[id] == g[id]
    decreases |ms|
  {
    if ms != [] {
      ResetAllTable(g, ms[..|ms| - 1]);
      IdsOfPrefix(ms);
    }
  }

  /** A page's document and window, as the injected functions see them. */
  class Page {
    /** `document.querySelectorAll("video, audio")`, in document order. */
    var media: seq<Media>
    /** The gain of `el._boosterGainNode`, for each element that has one. */
    var gains: map<nat, real>
    /** `window.__speedIntervalId`; 0 stands for its unset and `null` values, which are falsy. */
    var speedIntervalId: nat
    /** The intervals the browser will go on firing, each with the rate its callback applies. */
    var activeTimers: map<nat, real>
    /** The handle the next `setInterval` returns; handles are positive, hence truthy. */
    var nextHandle: nat
    /** Every gain node built in this page, in order of construction. */
    ghost var built: seq<nat>

    /**
     * The only live enforcement interval is the one the window records, and
     * no element has had a second gain node built.
     */
    ghost predicate Valid()
      reads this
    {
      TimersValid() && NodesBuiltOnce()
    }

    /** Handles are positive and issued in order; at most the recorded interval is live. */
    ghost predicate TimersValid()
      reads this`speedIntervalId, this`activeTimers, this`nextHandle
    {
      && 0 < nextHandle
      && speedIntervalId < nextHandle
      && (forall h :: h in activeTimers ==> 0 < h < nextHandle)
      && activeTimers.Keys == (if speedIntervalId == 0 then {} else {speedIntervalId})
    }

    /** No element had a node built twice, and every node built is in the table. */
    ghost predicate NodesBuiltOnce()
      reads this`built, this`gains
    {
      && NoDuplicates(built)
      && (forall i :: 0 <= i < |built| ==> built[i] in gains)
    }

    /** This page is enforcing `rate` with exactly one interval. */
    ghost predicate EnforcingRate(rate: real)
      reads this
    {
      speedIntervalId != 0 && activeTimers == map[speedIntervalId := rate]
    }

    constructor (media: seq<Media>)
      ensures Valid()
      ensures this.media == media && gains == map[]
      ensures speedIntervalId == 0 && activeTimers == map[] && built == []
    {
      this.media := media;
      gains := map[];
      built := [];
      speedIntervalId := 0;
      activeTimers := map[];
      nextHandle := 1;
    }

    /** The host's `setInterval`: a fresh positive handle whose callback applies `rate`. */
    method SetInterval(rate: real) returns (h: nat)
      modifies this`activeTimers, this`nextHandle
      ensures h == old(nextHandle) && nextHandle == h + 1
      ensures activeTimers == old(activeTimers)[h := rate]
    {
      h := nextHandle;
      nextHandle := nextHandle + 1;
      activeTimers := activeTimers[h := rate];
    }

    /** The loop body shared by the reset branch and by the interval callback. */
    method ApplyVideoRate(rate: real)
      modifies this`media
      ensures media == WithVideoRate(old(media), rate)
    {
      var i := 0;
      while i < |media|
        invariant 0 <= i <= |media| == |old(media)|
        invariant forall k :: 0 <= k < i ==> media[k] == WithRate(old(media)[k], rate)
        invariant forall k :: i <= k < |media| ==> media[k] == old(media)[k]
      {
        media := media[i := WithRate(media[i], rate)];
        i := i + 1;
      }
    }

    /** `setVideoSpeed(speed, enforce)` */
    method SetVideoSpeed(speed: real, enforce: bool)
      requires Valid()
      modifies this`media, this`speedIntervalId, this`activeTimers, this`nextHandle
      ensures Valid()
      ensures old(speedIntervalId) != 0 ==> old(speedIntervalId) !in activeTimers
      ensures enforce ==> EnforcingRate(speed) && speedIntervalId !in old(activeTimers) && media == old(media)
      ensures !enforce ==> speedIntervalId == 0 && activeTimers == map[] && media == WithVideoRate(old(media), 1.0)
    {
      if speedIntervalId != 0 {
        activeTimers := activeTimers - {speedIntervalId};
        speedIntervalId := 0;
      }
      if !enforce {
        ApplyVideoRate(1.0);
      } else {
        speedIntervalId := SetInterval(speed);
      }
    }

    /** One firing of interval `h`: a live interval reapplies its rate to every video; a cleared one never fires. */
    method FireSpeedInterval(h: nat)
      modifies this`media
      ensures media == if h in activeTimers then WithVideoRate(old(media), activeTimers[h]) else old(media)
    {
      if h in activeTimers {
        ApplyVideoRate(activeTimers[h]);
      }
    }

    /**
     * The `forEach` callback of `setVideoVolumeBoost` on element `i`: reset it,
     * then reuse its node, skip it, or build it a node.
     */
    method BoostElement(i: nat, level: real)
      requires i < |media|
      modifies this`media, this`gains, this`built
      ensures media == old(media)[i := Unboosted(old(media)[i])]
      ensures gains == BoostStep(old(gains), old(media)[i], level)
      ensures built == old(built) + BuiltStep(old(gains), old(media)[i])
    {
      var el := media[i];
      media := media[i := Unboosted(el)];
      if el.id in gains {
        gains := gains[el.id := Cap(level)];
      } else if MayAttach(el.source) {
        gains := gains[el.id := Cap(level)];
        built := built + [el.id];
      }
    }

    /** `setVideoVolumeBoost(level)`, past the audio context it needs. */
    method SetVideoVolumeBoost(level: real)
      requires Valid()
      modifies this`media, this`gains, this`built
      ensures Valid()
      ensures media == UnboostedAll(old(media))
      ensures gains == BoostAll(old(gains), old(media), level)
      ensures built == old(built) + BuiltAll(old(gains), old(media), level)
    {
      ghost var ms, g0, b0 := media, gains, built;
      var i := 0;
      while i < |media|
        invariant 0 <= i <= |media| == |ms|
        invariant forall k :: 0 <= k < i ==> media[k] == Unboosted(ms[k])
        invariant forall k :: i <= k < |media| ==> media[k] == ms[k]
        invariant gains == BoostAll(g0, ms[..i], level)
        invariant built == b0 + BuiltAll(g0, ms[..i], level)
      {
        ghost var done, next := BuiltAll(g0, ms[..i], level), BuiltStep(gains, ms[i]);
        BoostPrefixStep(g0, ms, i, level);
        BoostElement(i, level);
        assert built == b0 + (done + next) by {
          assert built == (b0 + done) + next;
        }
        i := i + 1;
      }
      assert ms[..i] == ms;
      AppendBuiltOnce(b0, g0, ms, level);
    }

    /** The loop of `disableBooster`: every existing node of this document goes back to gain 1. */
    method ResetGains()
      requires Valid()
      modifies this`gains
      ensures Valid()
      ensures gains == ResetAll(old(gains), media)
    {
      var i := 0;
      while i < |media|
        invariant 0 <= i <= |media|
        invariant gains == ResetAll(old(gains), media[..i])
      {
        assert media[..i + 1][..i] == media[..i];
        if media[i].id in gains {
          gains := gains[media[i].id := 1.0];
        }
        i := i + 1;
      }
      assert media[..i] == media;
      ResetAllTable(old(gains), media);
    }
  }
}
