/** go/internal/youtube/probe.go: from yt-dlp's format list to the qualities the card offers. */
module Formats {
  import opened Text

  datatype Format = Format(
    id: string, vcodec: string, acodec: string, width: int, height: int,
    filesize: int, approx: int, tbr: real, abr: real)

  /** One offered variant. */
  datatype Offer = Offer(height: int, size: int, id: string)

  function HasVideo(f: Format): bool { f.vcodec != "" && f.vcodec != "none" }

  function HasAudio(f: Format): bool { f.acodec != "" && f.acodec != "none" }

  function ShortSide(f: Format): int {
    if f.width > 0 && f.height > 0 && f.width < f.height then f.width else f.height
  }

  function PositiveFloor(x: real, y: real): (n: int)
    requires x > 0.0 && y > 0.0
    ensures n >= 0
  {
    assert x * y > 0.0;
    (x * y).Floor
  }

  function FormatSize(f: Format, duration: real): (n: int)
    ensures n >= 0
  {
    if f.filesize > 0 then f.filesize
    else if f.approx > 0 then f.approx
    else if f.tbr > 0.0 && duration > 0.0 then PositiveFloor(f.tbr * 1000.0, duration / 8.0)
    else 0
  }

  function VideoRank(codec: string): nat {
    var c := Lower(codec);
    if "avc1" <= c || "h264" <= c then 0 else if "vp9" <= c || "vp09" <= c then 1 else if "av01" <= c then 2 else 3
  }

  function AudioRank(codec: string): nat {
    var c := Lower(codec);
    if "mp4a" <= c || "aac" <= c then 0 else if "opus" <= c then 1 else 2
  }

  function AudioBitrate(f: Format): real {
    if f.abr > 0.0 then f.abr else f.tbr
  }

  predicate BetterVideo(a: Format, b: Format, duration: real) {
    if HasAudio(a) != HasAudio(b) then HasAudio(a)
    else
      var (ra, rb) := (VideoRank(a.vcodec), VideoRank(b.vcodec));
      if ra != rb then ra < rb
      else
        var (sa, sb) := (FormatSize(a, duration), FormatSize(b, duration));
        if sa == 0 || sb == 0 then sb == 0 && sa > 0 else sa < sb
  }

  predicate BetterAudio(a: Format, b: Format) {
    var (ra, rb) := (AudioRank(a.acodec), AudioRank(b.acodec));
    if ra != rb then ra < rb else AudioBitrate(a) > AudioBitrate(b)
  }

  // ---------------------------------------------------------------- the order behind betterVideo

  /** What is compared, most important first: self-contained, codec, size known, size. */
  datatype Rank = Rank(merge: nat, codec: nat, unknown: nat, size: int)

  function RankOf(f: Format, duration: real): Rank {
    var size := FormatSize(f, duration);
    Rank(if HasAudio(f) then 0 else 1, VideoRank(f.vcodec), if size == 0 then 1 else 0, size)
  }

  predicate Less(a: Rank, b: Rank) {
    a.merge < b.merge || (a.merge == b.merge &&
      (a.codec < b.codec || (a.codec == b.codec &&
        (a.unknown < b.unknown || (a.unknown == b.unknown && a.size < b.size)))))
  }

  /** The comparison is the lexicographic order progressive, codec rank, known size, smaller size. */
  lemma BetterIsLess(a: Format, b: Format, duration: real)
    ensures BetterVideo(a, b, duration) <==> Less(RankOf(a, duration), RankOf(b, duration))
  {
  }

  // ---------------------------------------------------------------- picks

  predicate VideoAt(f: Format, h: int) {
    HasVideo(f) && ShortSide(f) == h && h != 0
  }

  predicate AudioOnly(f: Format) {
    !HasVideo(f) && HasAudio(f)
  }

  /** A text stands before another in lower case. */
  lemma LowerPrefix(p: string, s: string)
    requires p == Lower(p) && p <= s
    ensures p <= Lower(s)
  {
    assert s[..|p|] == p;
    assert Lower(s)[..|p|] == Lower(p);
  }

  lemma PrefixOf(p: string, rest: string)
    ensures p <= p + rest
  {
  }

  lemma Codec(p: string, rest: string)
    requires Lower(p) == p && |p| >= 3
    ensures p <= Lower(p + rest) && Lower(p + rest)[0] == p[0] && Lower(p + rest)[1] == p[1]
    ensures Lower(p + rest)[2] == p[2]
  {
    PrefixOf(p, rest);
    LowerPrefix(p, p + rest);
  }

  /** Codecs by preference: h264, then vp9, then av01, then any other, whatever follows the name. */
  lemma VideoCodecs(rest: string, other: string)
    requires var c := Lower(other);
             !("avc1" <= c) && !("h264" <= c) && !("vp9" <= c) && !("vp09" <= c) && !("av01" <= c)
    ensures VideoRank("avc1" + rest) == VideoRank("h264" + rest)
    ensures VideoRank("avc1" + rest) < VideoRank("vp9" + rest) == VideoRank("vp09" + rest)
    ensures VideoRank("vp9" + rest) < VideoRank("av01" + rest) < VideoRank(other)
  {
    Codec("avc1", rest);
    Codec("h264", rest);
    Codec("vp9", rest);
    Codec("vp09", rest);
    Codec("av01", rest);
  }

  /** Audio: aac, then opus, then any other. */
  lemma AudioCodecs(rest: string, other: string)
    requires var c := Lower(other); !("mp4a" <= c) && !("aac" <= c) && !("opus" <= c)
    ensures AudioRank("mp4a" + rest) == AudioRank("aac" + rest) < AudioRank("opus" + rest) < AudioRank(other)
  {
    Codec("mp4a", rest);
    Codec("aac", rest);
    Codec("opus", rest);
  }

  /** Codec names are compared without regard to case. */
  lemma CaseFree(codec: string)
    ensures VideoRank(Lower(codec)) == VideoRank(codec) && AudioRank(Lower(codec)) == AudioRank(codec)
  {
    assert Lower(Lower(codec)) == Lower(codec);
  }

  /** The better audio: by codec, then the higher bitrate. */
  lemma BetterAudioIs(a: Format, b: Format)
    ensures BetterAudio(a, b) <==>
              || AudioRank(a.acodec) < AudioRank(b.acodec)
              || (AudioRank(a.acodec) == AudioRank(b.acodec) && AudioBitrate(a) > AudioBitrate(b))
  {
  }

  /** Sizes: the exact one, else the approximate one, else kilobits per second over the duration in bytes,
      rounded down, else unknown. */
  lemma SizeMeans(f: Format, duration: real)
    ensures f.filesize > 0 ==> FormatSize(f, duration) == f.filesize
    ensures f.filesize <= 0 < f.approx ==> FormatSize(f, duration) == f.approx
    ensures f.filesize <= 0 && f.approx <= 0 && f.tbr > 0.0 && duration > 0.0 ==>
              var bits := f.tbr * 1000.0 * duration;
              8.0 * FormatSize(f, duration) as real <= bits < 8.0 * (FormatSize(f, duration) + 1) as real
    ensures f.filesize <= 0 && f.approx <= 0 && (f.tbr <= 0.0 || duration <= 0.0) ==> FormatSize(f, duration) == 0
  {
    if f.filesize <= 0 && f.approx <= 0 && f.tbr > 0.0 && duration > 0.0 {
      var (x, y) := (f.tbr * 1000.0, duration / 8.0);
      assert x * y * 8.0 == x * duration;
    }
  }

  /** The resolution of a picture is its shorter side; without a width it is the height. */
  lemma ShortSideMeans(f: Format)
    ensures f.width > 0 && f.height > 0 ==>
              && (ShortSide(f) == f.width || ShortSide(f) == f.height)
              && ShortSide(f) <= f.width && ShortSide(f) <= f.height
    ensures f.width <= 0 || f.height <= 0 ==> ShortSide(f) == f.height
    ensures VideoAt(f, ShortSide(f)) <==> f.vcodec !in {"", "none"} && ShortSide(f) != 0
    ensures AudioOnly(f) <==> f.vcodec in {"", "none"} && f.acodec !in {"", "none"}
    ensures HasAudio(f) <==> f.acodec !in {"", "none"}
    ensures (f.abr > 0.0 ==> AudioBitrate(f) == f.abr) && (f.abr <= 0.0 ==> AudioBitrate(f) == f.tbr)
  {
  }

  /** The first format of the list that no other of its height beats. */
  ghost predicate PickAt(formats: seq<Format>, n: nat, h: int, duration: real, i: nat) {
    && i < n <= |formats| && VideoAt(formats[i], h)
    && (forall j :: 0 <= j < n && VideoAt(formats[j], h) ==> !BetterVideo(formats[j], formats[i], duration))
    && (forall j :: 0 <= j < i && VideoAt(formats[j], h) ==> BetterVideo(formats[i], formats[j], duration))
  }

  ghost predicate BestAudioAt(formats: seq<Format>, n: nat, i: nat) {
    && i < n <= |formats| && AudioOnly(formats[i])
    && (forall j :: 0 <= j < n && AudioOnly(formats[j]) ==> !BetterAudio(formats[j], formats[i]))
    && (forall j :: 0 <= j < i && AudioOnly(formats[j]) ==> BetterAudio(formats[i], formats[j]))
  }

  ghost predicate AudioOf(formats: seq<Format>, audio: Option<Format>) {
    && (audio.None? <==> forall j :: 0 <= j < |formats| ==> !AudioOnly(formats[j]))
    && (audio.Some? ==> exists j: nat :: BestAudioAt(formats, |formats|, j) && formats[j] == audio.value)
  }

  method BestAudio(formats: seq<Format>) returns (best: Option<Format>)
    ensures AudioOf(formats, best)
  {
    best := None;
    ghost var at := 0;
    for n := 0 to |formats|
      invariant best.None? ==> forall j :: 0 <= j < n ==> !AudioOnly(formats[j])
      invariant best.Some? ==> BestAudioAt(formats, n, at) && formats[at] == best.value
    {
      var f := formats[n];
      if HasVideo(f) || !HasAudio(f) {
        continue;
      }
      if best.None? {
        best, at := Some(f), n;
        continue;
      }
      var (ra, rb) := (AudioRank(f.acodec), AudioRank(best.value.acodec));
      if ra != rb {
        if ra < rb {
          best, at := Some(f), n;
        }
        continue;
      }
      if AudioBitrate(f) > AudioBitrate(best.value) {
        best, at := Some(f), n;
      }
    }
  }

  ghost predicate PicksOf(formats: seq<Format>, duration: real, byHeight: map<int, Format>) {
    && (forall h :: h in byHeight <==> exists j :: 0 <= j < |formats| && VideoAt(formats[j], h))
    && (forall h :: h in byHeight ==>
          exists i: nat :: PickAt(formats, |formats|, h, duration, i) && formats[i] == byHeight[h])
  }

  /** The picks after the first `n` formats, and where they are. */
  ghost predicate Picked(formats: seq<Format>, n: nat, duration: real, byHeight: map<int, Format>, at: map<int, nat>) {
    && n <= |formats| && byHeight.Keys == at.Keys
    && (forall j :: 0 <= j < n && HasVideo(formats[j]) && ShortSide(formats[j]) != 0
         ==> ShortSide(formats[j]) in byHeight)
    && (forall h :: h in at ==> PickAt(formats, n, h, duration, at[h]) && formats[at[h]] == byHeight[h])
  }

  lemma PicksAre(formats: seq<Format>, duration: real, byHeight: map<int, Format>, at: map<int, nat>)
    requires Picked(formats, |formats|, duration, byHeight, at)
    ensures PicksOf(formats, duration, byHeight)
  {
    forall h
      ensures h in byHeight <==> exists j :: 0 <= j < |formats| && VideoAt(formats[j], h)
    {
      if h in byHeight {
        assert VideoAt(formats[at[h]], h);
      }
    }
  }

  /** A format that beats the pick so far is the pick of the longer list. */
  lemma Beats(formats: seq<Format>, n: nat, h: int, duration: real, i: nat)
    requires n < |formats| && PickAt(formats, n, h, duration, i) && VideoAt(formats[n], h)
    requires BetterVideo(formats[n], formats[i], duration)
    ensures PickAt(formats, n + 1, h, duration, n)
  {
    forall j | 0 <= j < n && VideoAt(formats[j], h)
      ensures BetterVideo(formats[n], formats[j], duration)
    {
      BetterIsLess(formats[n], formats[i], duration);
      BetterIsLess(formats[j], formats[i], duration);
      BetterIsLess(formats[n], formats[j], duration);
    }
    forall j | 0 <= j < n && VideoAt(formats[j], h)
      ensures !BetterVideo(formats[j], formats[n], duration)
    {
      BetterIsLess(formats[n], formats[j], duration);
      BetterIsLess(formats[j], formats[n], duration);
    }
    BetterIsLess(formats[n], formats[n], duration);
  }

  /** Any other format leaves the pick. */
  lemma Stands(formats: seq<Format>, n: nat, h: int, duration: real, i: nat)
    requires n < |formats| && PickAt(formats, n, h, duration, i)
    requires !(VideoAt(formats[n], h) && BetterVideo(formats[n], formats[i], duration))
    ensures PickAt(formats, n + 1, h, duration, i)
  {
  }

  predicate Passed(f: Format, byHeight: map<int, Format>, duration: real) {
    || !HasVideo(f) || ShortSide(f) == 0
    || (ShortSide(f) in byHeight && !BetterVideo(f, byHeight[ShortSide(f)], duration))
  }

  /** A format without video, or one that beats no pick, changes none. */
  lemma PicksStand(formats: seq<Format>, n: nat, duration: real, byHeight: map<int, Format>, at: map<int, nat>)
    requires Picked(formats, n, duration, byHeight, at) && n < |formats| && Passed(formats[n], byHeight, duration)
    ensures Picked(formats, n + 1, duration, byHeight, at)
  {
    forall h | h in at
      ensures PickAt(formats, n + 1, h, duration, at[h])
    {
      Stands(formats, n, h, duration, at[h]);
    }
  }

  /** Any other becomes the pick of its height. */
  lemma NewPick(formats: seq<Format>, n: nat, duration: real, byHeight: map<int, Format>, at: map<int, nat>)
    requires Picked(formats, n, duration, byHeight, at) && n < |formats| && !Passed(formats[n], byHeight, duration)
    ensures PickAt(formats, n + 1, ShortSide(formats[n]), duration, n)
  {
    var h := ShortSide(formats[n]);
    if h in at {
      Beats(formats, n, h, duration, at[h]);
    }
  }

  /** The picks of other heights stand. */
  lemma OtherPick(formats: seq<Format>, n: nat, duration: real, byHeight: map<int, Format>, at: map<int, nat>, g: int)
    requires Picked(formats, n, duration, byHeight, at) && n < |formats| && g in at && g != ShortSide(formats[n])
    ensures PickAt(formats, n + 1, g, duration, at[g])
  {
    Stands(formats, n, g, duration, at[g]);
  }

  lemma PickTaken(formats: seq<Format>, n: nat, duration: real, byHeight: map<int, Format>, at: map<int, nat>)
    requires Picked(formats, n, duration, byHeight, at) && n < |formats| && !Passed(formats[n], byHeight, duration)
    ensures var h := ShortSide(formats[n]);
            Picked(formats, n + 1, duration, byHeight[h := formats[n]], at[h := n])
  {
    var h := ShortSide(formats[n]);
    NewPick(formats, n, duration, byHeight, at);
    forall g | g in at && g != h
      ensures PickAt(formats, n + 1, g, duration, at[g])
    {
      OtherPick(formats, n, duration, byHeight, at, g);
    }
  }

  /** The loop that fills `byHeight`. */
  method PickByHeight(formats: seq<Format>, duration: real) returns (byHeight: map<int, Format>)
    ensures PicksOf(formats, duration, byHeight)
  {
    byHeight := map[];
    ghost var at: map<int, nat> := map[];
    for n := 0 to |formats|
      invariant Picked(formats, n, duration, byHeight, at)
    {
      var f := formats[n];
      if Passed(f, byHeight, duration) {
        PicksStand(formats, n, duration, byHeight, at);
      } else {
        PickTaken(formats, n, duration, byHeight, at);
      }
      if !HasVideo(f) || ShortSide(f) == 0 {
        continue;
      }
      var h := ShortSide(f);
      if h !in byHeight || BetterVideo(f, byHeight[h], duration) {
        byHeight, at := byHeight[h := f], at[h := n];
      }
    }
    PicksAre(formats, duration, byHeight, at);
  }

  // ---------------------------------------------------------------- the offer

  /** The offer for a height, given its pick and the audio track of a merged download. */
  function OfferFor(h: int, f: Format, audio: Option<Format>, duration: real): Option<Offer> {
    var size := FormatSize(f, duration);
    if HasAudio(f) then Some(Offer(h, size, f.id))
    else if audio.None? then None
    else Some(Offer(h, size + FormatSize(audio.value, duration), f.id + "+" + audio.value.id))
  }

  /** A height can be delivered: some video has it, and one of those carries audio or an audio-only
      format exists. */
  ghost predicate Deliverable(formats: seq<Format>, h: int) {
    && (exists i :: 0 <= i < |formats| && VideoAt(formats[i], h))
    && ((exists i :: 0 <= i < |formats| && VideoAt(formats[i], h) && HasAudio(formats[i])) ||
        (exists j :: 0 <= j < |formats| && AudioOnly(formats[j])))
  }

  /** An offer is right when it names the pick of its height and, when that carries no audio, also a best audio
      track, with the sizes added up. */
  ghost predicate Right(formats: seq<Format>, duration: real, o: Offer) {
    exists i: nat ::
      && PickAt(formats, |formats|, o.height, duration, i)
      && if HasAudio(formats[i]) then o.id == formats[i].id && o.size == FormatSize(formats[i], duration)
         else exists j: nat :: BestAudioAt(formats, |formats|, j) && Merges(formats[i], formats[j], duration, o)
  }

  predicate Merges(f: Format, a: Format, duration: real, o: Offer) {
    o.id == f.id + "+" + a.id && o.size == FormatSize(f, duration) + FormatSize(a, duration)
  }

  predicate Ascending(hs: seq<int>) {
    forall i, j :: 0 <= i < j < |hs| ==> hs[i] < hs[j]
  }

  function Heights(out: seq<Offer>): seq<int> {
    seq(|out|, i requires 0 <= i < |out| => out[i].height)
  }

  /** Whether a progressive format decides the pick: any format with audio beats any without. */
  lemma PickHasAudio(formats: seq<Format>, h: int, duration: real, i: nat, j: nat)
    requires PickAt(formats, |formats|, h, duration, i) && j < |formats| && VideoAt(formats[j], h)
    requires HasAudio(formats[j])
    ensures HasAudio(formats[i])
  {
  }

  function OfferAt(byHeight: map<int, Format>, audio: Option<Format>, duration: real, h: int): Option<Offer> {
    if h in byHeight then OfferFor(h, byHeight[h], audio, duration) else None
  }

  /** The offers for a list of heights, in its order. */
  function Offers(byHeight: map<int, Format>, audio: Option<Format>, duration: real, allowed: seq<int>): seq<Offer> {
    if allowed == [] then []
    else
      var (front, h) := (allowed[..|allowed| - 1], allowed[|allowed| - 1]);
      var out := Offers(byHeight, audio, duration, front);
      match OfferAt(byHeight, audio, duration, h)
      case Some(o) => out + [o]
      case None => out
  }

  /** One taller height keeps the heights ascending, and adds just itself. */
  lemma TallerLast(out: seq<Offer>, o: Offer)
    requires Ascending(Heights(out)) && forall x :: x in Heights(out) ==> x < o.height
    ensures Ascending(Heights(out + [o]))
    ensures forall x :: x in Heights(out + [o]) <==> x in Heights(out) || x == o.height
  {
    var before := Heights(out);
    assert Heights(out + [o]) == before + [o.height];
    assert forall i :: 0 <= i < |before| ==> before[i] in before;
  }

  lemma {:induction false} OffersShape(byHeight: map<int, Format>, audio: Option<Format>, duration: real,
                                       allowed: seq<int>)
    requires Ascending(allowed)
    ensures var out := Offers(byHeight, audio, duration, allowed);
            && Ascending(Heights(out))
            && (forall h :: h in Heights(out) <==> h in allowed && OfferAt(byHeight, audio, duration, h).Some?)
            && (forall k :: 0 <= k < |out| ==> OfferAt(byHeight, audio, duration, out[k].height) == Some(out[k]))
  {
    if allowed != [] {
      var (front, h) := (allowed[..|allowed| - 1], allowed[|allowed| - 1]);
      OffersShape(byHeight, audio, duration, front);
      assert allowed == front + [h];
      assert forall x :: x in front ==> x < h;
      match OfferAt(byHeight, audio, duration, h)
      case Some(o) => TallerLast(Offers(byHeight, audio, duration, front), o);
      case None =>
    }
  }

  lemma RightPick(formats: seq<Format>, duration: real, o: Offer, i: nat, audio: Option<Format>)
    requires PickAt(formats, |formats|, o.height, duration, i)
    requires OfferFor(o.height, formats[i], audio, duration) == Some(o)
    requires audio.Some? ==> exists j: nat :: BestAudioAt(formats, |formats|, j) && formats[j] == audio.value
    ensures Right(formats, duration, o)
  {
    if !HasAudio(formats[i]) {
      var j: nat :| BestAudioAt(formats, |formats|, j) && formats[j] == audio.value;
      assert Merges(formats[i], formats[j], duration, o);
    }
  }

  lemma {:induction false} DeliverableIff(formats: seq<Format>, duration: real, h: int, i: nat, audio: Option<Format>)
    requires PickAt(formats, |formats|, h, duration, i)
    requires audio.None? <==> forall j :: 0 <= j < |formats| ==> !AudioOnly(formats[j])
    ensures Deliverable(formats, h) <==> OfferFor(h, formats[i], audio, duration).Some?
  {
    assert VideoAt(formats[i], h);
    if j :| 0 <= j < |formats| && VideoAt(formats[j], h) && HasAudio(formats[j]) {
      PickHasAudio(formats, h, duration, i, j);
    }
  }

  lemma OneOffer(formats: seq<Format>, duration: real, byHeight: map<int, Format>, audio: Option<Format>, h: int)
    requires PicksOf(formats, duration, byHeight) && AudioOf(formats, audio)
    ensures OfferAt(byHeight, audio, duration, h).Some? <==> Deliverable(formats, h)
    ensures OfferAt(byHeight, audio, duration, h).Some? ==> Right(formats, duration, OfferAt(byHeight, audio,
              duration, h).value)
  {
    if h in byHeight {
      var i: nat :| PickAt(formats, |formats|, h, duration, i) && formats[i] == byHeight[h];
      DeliverableIff(formats, duration, h, i, audio);
      if OfferAt(byHeight, audio, duration, h).Some? {
        RightPick(formats, duration, OfferAt(byHeight, audio, duration, h).value, i, audio);
      }
    }
  }

  lemma OffersRight(formats: seq<Format>, duration: real, allowed: seq<int>, byHeight: map<int, Format>,
                    audio: Option<Format>)
    requires Ascending(allowed) && PicksOf(formats, duration, byHeight) && AudioOf(formats, audio)
    ensures var out := Offers(byHeight, audio, duration, allowed);
            && Ascending(Heights(out))
            && (forall h :: h in Heights(out) <==> h in allowed && Deliverable(formats, h))
            && (forall k :: 0 <= k < |out| ==> Right(formats, duration, out[k]))
  {
    OffersShape(byHeight, audio, duration, allowed);
    forall h
      ensures OfferAt(byHeight, audio, duration, h).Some? <==> Deliverable(formats, h)
    {
      OneOffer(formats, duration, byHeight, audio, h);
    }
    var out := Offers(byHeight, audio, duration, allowed);
    forall k | 0 <= k < |out|
      ensures Right(formats, duration, out[k])
    {
      OneOffer(formats, duration, byHeight, audio, out[k].height);
    }
  }

  /** The second loop of `Options`: walk the allowed heights. */
  method Collect(byHeight: map<int, Format>, audio: Option<Format>, duration: real, allowed: seq<int>)
    returns (out: seq<Offer>)
    ensures out == Offers(byHeight, audio, duration, allowed)
  {
    out := [];
    for n := 0 to |allowed|
      invariant out == Offers(byHeight, audio, duration, allowed[..n])
    {
      assert allowed[..n + 1][..n] == allowed[..n];
      var h := allowed[n];
      if h !in byHeight {
        continue;
      }
      var f := byHeight[h];
      var size := FormatSize(f, duration);
      if HasAudio(f) {
        out := out + [Offer(h, size, f.id)];
        continue;
      }
      if audio.None? {
        continue;
      }
      out := out + [Offer(h, size + FormatSize(audio.value, duration), f.id + "+" + audio.value.id)];
    }
    assert allowed[..|allowed|] == allowed;
  }

  /** `Options` on present metadata. */
  method Options(formats: seq<Format>, duration: real, allowed: seq<int>) returns (out: seq<Offer>)
    requires Ascending(allowed)
    ensures Ascending(Heights(out))
    ensures forall h :: h in Heights(out) <==> h in allowed && Deliverable(formats, h)
    ensures forall k :: 0 <= k < |out| ==> Right(formats, duration, out[k])
    ensures forall k :: 0 <= k < |out| ==>
              exists i: nat ::
                && PickAt(formats, |formats|, out[k].height, duration, i)
                && if HasAudio(formats[i])
                   then out[k].id == formats[i].id && out[k].size == FormatSize(formats[i], duration)
                   else exists j: nat ::
                          && BestAudioAt(formats, |formats|, j)
                          && out[k].id == formats[i].id + "+" + formats[j].id
                          && out[k].size == FormatSize(formats[i], duration) + FormatSize(formats[j], duration)
  {
    var audio := BestAudio(formats);
    var byHeight := PickByHeight(formats, duration);
    out := Collect(byHeight, audio, duration, allowed);
    OffersRight(formats, duration, allowed, byHeight, audio);
    forall k | 0 <= k < |out|
      ensures Right(formats, duration, out[k])
    {
    }
  }

  // ---------------------------------------------------------------- the allowed ladder

  const DEFAULT_HEIGHTS: seq<int> := [144, 240, 360, 480, 720, 1080]

  function InsertInt(x: int, sorted: seq<int>): seq<int> {
    if sorted == [] || x < sorted[0] then [x] + sorted else [sorted[0]] + InsertInt(x, sorted[1..])
  }

  /** `sort.Ints`. */
  function SortInts(xs: seq<int>): seq<int> {
    if xs == [] then [] else InsertInt(xs[0], SortInts(xs[1..]))
  }

  lemma {:induction false} InsertIntMembers(x: int, sorted: seq<int>)
    ensures forall y :: y in InsertInt(x, sorted) <==> y == x || y in sorted
  {
    if sorted != [] && x >= sorted[0] {
      InsertIntMembers(x, sorted[1..]);
      assert sorted == [sorted[0]] + sorted[1..];
    }
  }

  lemma {:induction false} InsertIntAscends(x: int, sorted: seq<int>)
    requires Ascending(sorted) && x !in sorted
    ensures Ascending(InsertInt(x, sorted))
  {
    if sorted != [] && x >= sorted[0] {
      var rest := InsertInt(x, sorted[1..]);
      InsertIntAscends(x, sorted[1..]);
      InsertIntMembers(x, sorted[1..]);
      assert sorted[0] in sorted && sorted[0] < x;
      forall k | 0 <= k < |rest|
        ensures sorted[0] < rest[k]
      {
        assert rest[k] in rest;
      }
    }
  }

  lemma {:induction false} InsertIntLength(x: int, sorted: seq<int>)
    ensures |InsertInt(x, sorted)| == |sorted| + 1
  {
    if sorted != [] && x >= sorted[0] {
      InsertIntLength(x, sorted[1..]);
    }
  }

  lemma {:induction false} SortIntsKeeps(xs: seq<int>)
    requires forall i, j :: 0 <= i < j < |xs| ==> xs[i] != xs[j]
    ensures Ascending(SortInts(xs)) && |SortInts(xs)| == |xs|
    ensures forall y :: y in SortInts(xs) <==> y in xs
  {
    if xs != [] {
      SortIntsKeeps(xs[1..]);
      assert xs == [xs[0]] + xs[1..];
      assert xs[0] !in xs[1..];
      InsertIntMembers(xs[0], SortInts(xs[1..]));
      InsertIntAscends(xs[0], SortInts(xs[1..]));
      InsertIntLength(xs[0], SortInts(xs[1..]));
    }
  }

  /** A list entry that names a positive height. */
  predicate Names(v: string, h: int) {
    Atoi(TrimSpace(v)) == Some(h) && h > 0
  }

  ghost predicate Named(values: seq<string>, h: int) {
    exists k :: 0 <= k < |values| && Names(values[k], h)
  }

  /** A list names the positive decimal integers among its entries, spaces around them aside. */
  lemma NamedIs(values: seq<string>, h: int)
    ensures Named(values, h) <==> h > 0 && exists k :: 0 <= k < |values| && Atoi(TrimSpace(values[k])) == Some(h)
  {
    if k :| 0 <= k < |values| && Atoi(TrimSpace(values[k])) == Some(h) && h > 0 {
      assert Names(values[k], h);
    }
  }

  method AllowedHeights(values: seq<string>) returns (out: seq<int>)
    ensures Ascending(out) && out != []
    ensures forall h :: h in out <==> if exists x :: Named(values, x) then Named(values, h)
                                      else h in {144, 240, 360, 480, 720, 1080}
  {
    var seen: set<int> := {};
    out := [];
    for n := 0 to |values|
      invariant forall h :: h in seen <==> h in out
      invariant forall h :: h in out <==> Named(values[..n], h)
      invariant forall i, j :: 0 <= i < j < |out| ==> out[i] != out[j]
    {
      ghost var before := out;
      assert values[..n + 1] == values[..n] + [values[n]];
      var parsed := Atoi(TrimSpace(values[n]));
      if parsed.Some? && parsed.value > 0 && parsed.value !in seen {
        seen := seen + {parsed.value};
        out := out + [parsed.value];
      }
      forall h
        ensures h in out <==> Named(values[..n + 1], h)
      {
        if Named(values[..n], h) {
          var k :| 0 <= k < n && Names(values[..n][k], h);
          assert Names(values[..n + 1][k], h);
        }
        if Names(values[n], h) {
          assert Names(values[..n + 1][n], h);
        }
      }
    }
    assert values[..|values|] == values;
    if |out| == 0 {
      return DEFAULT_HEIGHTS;
    }
    SortIntsKeeps(out);
    assert out[0] in out && Named(values, out[0]);
    out := SortInts(out);
  }
}
