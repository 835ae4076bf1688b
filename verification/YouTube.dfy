/** From a setting an administrator edits to the frame a worker encodes: the YouTube parts of
    go/internal/handler/youtube.go, queue/client.go, worker/download.go and video/processor.go. */
module YouTube {
  import opened Text
  import opened Formats
  import opened Settings

  // ---------------------------------------------------------------- the two list settings

  const QUALITY_NAMES: seq<string> := ["144", "240", "360", "480", "720", "1080"]
  const RATIO_NAMES: seq<string> := ["16_9", "21_9", "9_16"]

  const QUALITIES := Setting("youtube.allowed_qualities", "", ListKind, 0, 0, 0, false, "144,240,360,480,720,1080",
    QUALITY_NAMES)
  const RATIOS := Setting("youtube.allowed_ratios", "", ListKind, 0, 0, 0, false, "16_9,21_9,9_16", RATIO_NAMES)

  lemma PlainEntry(p: string)
    requires p != "" && forall k :: 0 <= k < |p| ==> IsDigit(p[k]) || p[k] == '_'
    ensures Entry(p)
  {
    assert p[0] != ' ' && p[|p| - 1] != ' ';
  }

  lemma JoinMore(p: string, rest: seq<string>)
    requires rest != []
    ensures Join([p] + rest, ',') == p + "," + Join(rest, ',')
  {
    assert ([p] + rest)[1..] == rest;
  }

  lemma UpperText()
    ensures Join(["480", "720", "1080"], ',') == "480,720,1080"
  {
    JoinMore("720", ["1080"]);
    JoinMore("480", ["720", "1080"]);
  }

  lemma MiddleText()
    ensures Join(["360", "480", "720", "1080"], ',') == "360,480,720,1080"
  {
    UpperText();
    JoinMore("360", ["480", "720", "1080"]);
  }

  lemma LowerText()
    ensures Join(["240", "360", "480", "720", "1080"], ',') == "240,360,480,720,1080"
  {
    MiddleText();
    JoinMore("240", ["360", "480", "720", "1080"]);
  }

  lemma QualityText()
    ensures Join(QUALITY_NAMES, ',') == "144,240,360,480,720,1080"
  {
    LowerText();
    JoinMore("144", ["240", "360", "480", "720", "1080"]);
  }

  lemma QualityEntries()
    ensures forall k :: 0 <= k < |QUALITY_NAMES| ==> Entry(QUALITY_NAMES[k])
  {
    PlainEntry("144");
    PlainEntry("240");
    PlainEntry("360");
    PlainEntry("480");
    PlainEntry("720");
    PlainEntry("1080");
  }

  lemma QualityDefault()
    ensures SplitList("144,240,360,480,720,1080") == QUALITY_NAMES
  {
    QualityEntries();
    EntriesRoundTrip(QUALITY_NAMES);
    QualityText();
  }

  lemma RatioDefault()
    ensures SplitList("16_9,21_9,9_16") == RATIO_NAMES
  {
    PlainEntry("16_9");
    PlainEntry("21_9");
    PlainEntry("9_16");
    EntriesRoundTrip(RATIO_NAMES);
    assert Join(RATIO_NAMES, ',') == "16_9,21_9,9_16";
  }

  /** A well-kept store that knows the two settings, neither of which has a configuration field. */
  ghost predicate Wired(store: Store)
    reads store
  {
    && store.Valid()
    && QUALITIES.key in store.registry && store.registry[QUALITIES.key] == QUALITIES
    && RATIOS.key in store.registry && store.registry[RATIOS.key] == RATIOS
    && "" !in store.config
  }

  /** The effective qualities and ratios of the moment. */
  ghost function Qualities(store: Store, up: bool): seq<string>
    reads store
  {
    ListOf(Read(QUALITIES, store.hash, store.config, up), QUALITY_NAMES)
  }

  ghost function Ratios(store: Store, up: bool): seq<string>
    reads store
  {
    ListOf(Read(RATIOS, store.hash, store.config, up), RATIO_NAMES)
  }

  /** What is stored counts while Redis answers and it is not empty; otherwise all values are allowed. */
  lemma QualitiesStored(store: Store)
    requires Wired(store)
    ensures "youtube.allowed_qualities" in store.hash && store.hash["youtube.allowed_qualities"] != "" ==>
              Qualities(store, true) == SplitList(store.hash["youtube.allowed_qualities"])
    ensures "youtube.allowed_qualities" in store.hash && store.hash["youtube.allowed_qualities"] == "" ==>
              Qualities(store, true) == QUALITY_NAMES
  {
  }

  lemma QualitiesDefault(store: Store, up: bool)
    requires Wired(store) && (!up || "youtube.allowed_qualities" !in store.hash)
    ensures Qualities(store, up) == QUALITY_NAMES
  {
    QualityDefault();
    assert Read(QUALITIES, store.hash, store.config, up) == TextValue("144,240,360,480,720,1080");
  }

  lemma QualitiesInForce(store: Store, up: bool)
    requires Wired(store)
    ensures Qualities(store, up) ==
            if up && "youtube.allowed_qualities" in store.hash && store.hash["youtube.allowed_qualities"] != ""
            then SplitList(store.hash["youtube.allowed_qualities"]) else ["144", "240", "360", "480", "720", "1080"]
  {
    if up && "youtube.allowed_qualities" in store.hash {
      QualitiesStored(store);
    } else {
      QualitiesDefault(store, up);
    }
  }

  lemma RatiosInForce(store: Store, up: bool)
    requires Wired(store)
    ensures Ratios(store, up) ==
            if up && "youtube.allowed_ratios" in store.hash && store.hash["youtube.allowed_ratios"] != ""
            then SplitList(store.hash["youtube.allowed_ratios"]) else ["16_9", "21_9", "9_16"]
  {
    RatioDefault();
  }

  // ---------------------------------------------------------------- what the bot offers

  lemma TwoDigits(s: string)
    requires |s| == 2 && Digits(s)
    ensures NatValue(s) == DigitValue(s[0]) * 10 + DigitValue(s[1])
  {
    assert s[..1][..0] == "" && NatValue("") == 0;
    assert NatValue(s[..1]) == DigitValue(s[0]);
  }

  lemma ThreeDigits(s: string)
    requires |s| == 3 && Digits(s)
    ensures NatValue(s) == DigitValue(s[0]) * 100 + DigitValue(s[1]) * 10 + DigitValue(s[2])
  {
    TwoDigits(s[..2]);
  }

  lemma FourDigits(s: string)
    requires |s| == 4 && Digits(s)
    ensures NatValue(s) == DigitValue(s[0]) * 1000 + DigitValue(s[1]) * 100 + DigitValue(s[2]) * 10 + DigitValue(s[3])
  {
    ThreeDigits(s[..3]);
  }

  lemma QualityValue(v: string)
    requires v in QUALITY_NAMES
    ensures v != "" && Digits(v) && NatValue(v) in DEFAULT_HEIGHTS
  {
    if |v| == 4 {
      FourDigits(v);
    } else {
      ThreeDigits(v);
    }
  }

  lemma NamesValue(v: string)
    requires v in QUALITY_NAMES
    ensures Digits(v) && Names(v, NatValue(v))
  {
    QualityValue(v);
    PlainEntry(v);
    TrimmedFixed(v);
    assert IsDigit(v[0]);
  }

  /** The heights the allowed entries name. */
  lemma NamedHeight(v: string, h: int)
    requires v in QUALITY_NAMES && Names(v, h)
    ensures h in DEFAULT_HEIGHTS
  {
    NamesValue(v);
    QualityValue(v);
  }

  method EffectiveQualities(store: Store, up: bool) returns (values: seq<string>)
    requires Wired(store)
    ensures values == Qualities(store, up) && Drawn(values, QUALITY_NAMES)
  {
    QualityDefault();
    values := store.CurrentStringList(QUALITIES.key, QUALITY_NAMES, up);
  }

  /** The allowed heights of the moment: some of the six, ascending, never none. */
  method Ladder(store: Store, up: bool) returns (heights: seq<int>)
    requires Wired(store)
    ensures Ascending(heights) && heights != []
    ensures forall h :: h in heights <==> Named(Qualities(store, up), h)
    ensures forall h :: h in heights ==> h in DEFAULT_HEIGHTS
  {
    var values := EffectiveQualities(store, up);
    heights := AllowedHeights(values);
    NamesValue(values[0]);
    assert Named(values, NatValue(values[0]));
    forall h | h in heights
      ensures h in DEFAULT_HEIGHTS
    {
      if Named(values, h) {
        var k :| 0 <= k < |values| && Names(values[k], h);
        NamedHeight(values[k], h);
      }
    }
  }

  lemma LastIsLargest(heights: seq<int>)
    requires Ascending(heights) && heights != []
    ensures heights[|heights| - 1] in heights && forall h :: h in heights ==> h <= heights[|heights| - 1]
  {
  }

  /** `topAllowedQuality`: the largest allowed height. */
  method TopAllowedQuality(store: Store, up: bool) returns (top: int)
    requires Wired(store)
    ensures top in DEFAULT_HEIGHTS
    ensures Named(Qualities(store, up), top) && forall h :: Named(Qualities(store, up), h) ==> h <= top
  {
    var heights := Ladder(store, up);
    top := heights[|heights| - 1];
    LastIsLargest(heights);
  }

  datatype Meta = Meta(formats: seq<Format>, duration: real)

  /** The video has one of the allowed heights. */
  ghost predicate Offerable(store: Store, meta: Option<Meta>, up: bool)
    reads store
  {
    meta.Some? && exists h :: Named(Qualities(store, up), h) && Deliverable(meta.value.formats, h)
  }

  /** `youtubeOptions`: what the video has of the allowed heights, or all of them blind. */
  method YouTubeOptions(store: Store, meta: Option<Meta>, up: bool) returns (opts: seq<Offer>)
    requires Wired(store)
    ensures Ascending(Heights(opts)) && opts != []
    ensures forall k :: 0 <= k < |opts| ==> opts[k].height in DEFAULT_HEIGHTS
    ensures forall h :: h in Heights(opts) <==>
              Named(Qualities(store, up), h) && (Offerable(store, meta, up) ==> Deliverable(meta.value.formats, h))
    ensures Offerable(store, meta, up) ==>
              forall k :: 0 <= k < |opts| ==> Right(meta.value.formats, meta.value.duration, opts[k])
    ensures !Offerable(store, meta, up) ==> forall k :: 0 <= k < |opts| ==> opts[k].size == 0 && opts[k].id == ""
  {
    var allowed := Ladder(store, up);
    if meta.Some? {
      opts := Options(meta.value.formats, meta.value.duration, allowed);
      if |opts| > 0 {
        forall k | 0 <= k < |opts|
          ensures opts[k].height in DEFAULT_HEIGHTS
        {
          assert Heights(opts)[k] in Heights(opts);
        }
        assert Heights(opts)[0] in Heights(opts);
        return;
      }
      assert Heights(opts) == [];
    }
    opts := seq(|allowed|, i requires 0 <= i < |allowed| => Offer(allowed[i], 0, ""));
    assert Heights(opts) == allowed;
  }

  ghost predicate Keeps(values: seq<string>, r: string) {
    r != "" && exists k :: 0 <= k < |values| && TrimSpace(values[k]) == r
  }

  lemma KeepsOne(values: seq<string>, i: nat)
    requires i < |values|
    ensures forall r :: Keeps(values[..i + 1], r) <==> Keeps(values[..i], r) || (r != "" && TrimSpace(values[i]) == r)
  {
    forall r
      ensures Keeps(values[..i + 1], r) <==> Keeps(values[..i], r) || (r != "" && TrimSpace(values[i]) == r)
    {
      if Keeps(values[..i], r) {
        var k :| 0 <= k < i && TrimSpace(values[..i][k]) == r;
        assert TrimSpace(values[..i + 1][k]) == r;
      }
      if r != "" && TrimSpace(values[i]) == r {
        assert TrimSpace(values[..i + 1][i]) == r;
      }
    }
  }

  /** `RatioSetFromStrings`: the non-empty trimmed values, or all valid ratios. */
  method RatioSet(values: seq<string>) returns (ratios: set<string>)
    ensures forall r :: r in ratios <==> if exists v :: Keeps(values, v) then Keeps(values, r) else r in RATIO_NAMES
    ensures forall k :: 0 <= k < |values| && TrimSpace(values[k]) != "" ==> TrimSpace(values[k]) in ratios
    ensures (forall k :: 0 <= k < |values| ==> TrimSpace(values[k]) == "") ==> ratios == {"16_9", "21_9", "9_16"}
  {
    ratios := {};
    for i := 0 to |values|
      invariant forall r :: r in ratios <==> Keeps(values[..i], r)
    {
      KeepsOne(values, i);
      var v := TrimSpace(values[i]);
      if v != "" {
        ratios := ratios + {v};
      }
    }
    assert values[..|values|] == values;
    forall k | 0 <= k < |values| && TrimSpace(values[k]) != ""
      ensures TrimSpace(values[k]) in ratios
    {
      assert Keeps(values, TrimSpace(values[k]));
    }
    if ratios == {} {
      ratios := {"16_9", "21_9", "9_16"};
    } else {
      var r :| r in ratios;
      assert Keeps(values, r);
    }
  }

  method EffectiveRatios(store: Store, up: bool) returns (values: seq<string>)
    requires Wired(store)
    ensures values == Ratios(store, up) && Drawn(values, RATIO_NAMES)
  {
    RatioDefault();
    values := store.CurrentStringList(RATIOS.key, RATIO_NAMES, up);
  }

  /** The set of the allowed entries is the set of their trimmed texts. */
  lemma RatioKept(values: seq<string>, r: string)
    requires Drawn(values, RATIO_NAMES)
    ensures Keeps(values, r) <==> r in values
    ensures Keeps(values, values[0])
    ensures r in values ==> r in RATIO_NAMES && r != "" && r != "ask"
  {
    forall k | 0 <= k < |values|
      ensures TrimSpace(values[k]) == values[k] && values[k] != ""
    {
      PlainEntry(values[k]);
      TrimmedFixed(values[k]);
    }
    if r in values {
      var k :| 0 <= k < |values| && values[k] == r;
      assert TrimSpace(values[k]) == r;
    }
    assert TrimSpace(values[0]) == values[0];
  }

  method ChooseRatio(values: seq<string>, chosen: string) returns (ratio: string)
    requires Drawn(values, RATIO_NAMES)
    ensures ratio == if chosen in values then chosen else ""
    ensures ratio != "" ==> ratio in RATIO_NAMES
    ensures chosen in values ==> chosen != ""
  {
    RatioKept(values, chosen);
    if chosen == "" || chosen == "ask" {
      return "";
    }
    var allowed := RatioSet(values);
    ratio := if chosen in allowed then chosen else "";
  }

  /** `youtubeAspectRatio`: the ratio the user chose, when it is one the administrator allows.  `chosen` is
      absent when the user's settings could not be read. */
  method YouTubeAspectRatio(store: Store, chosen: Option<string>, up: bool) returns (ratio: string)
    requires Wired(store)
    ensures ratio != "" ==> chosen == Some(ratio) && ratio in RATIO_NAMES
    ensures ratio != "" <==> chosen.Some? && chosen.value in Ratios(store, up)
  {
    if chosen.None? {
      return "";
    }
    var values := EffectiveRatios(store, up);
    ratio := ChooseRatio(values, chosen.value);
  }

  // ---------------------------------------------------------------- the job

  datatype Session = Session(
    url: string, chat: int, user: int, message: int, lang: string, title: string, author: string,
    options: seq<Offer>, trimStart: real, trimEnd: real)

  datatype Payload = Payload(
    url: string, platform: string, chat: int, user: int, message: int, lang: string, title: string, author: string,
    audioOnly: bool, quality: int, ratio: string, formatId: string, trimStart: real, trimEnd: real, noWatermark: bool)

  /** `OptionFor`: the first option of that height. */
  method OptionFor(options: seq<Offer>, height: int) returns (found: Option<Offer>)
    ensures found.Some? ==> exists i :: 0 <= i < |options| && options[i] == found.value && options[i].height == height
                                        && forall k :: 0 <= k < i ==> options[k].height != height
    ensures found.None? ==> height !in Heights(options)
  {
    for i := 0 to |options|
      invariant forall k :: 0 <= k < i ==> options[k].height != height
    {
      if options[i].height == height {
        return Some(options[i]);
      }
    }
    found := None;
  }

  function BuildPayload(s: Session, option: Offer, audioOnly: bool, ratio: string): Payload {
    var p := Payload(s.url, "youtube", s.chat, s.user, s.message, s.lang, s.title, s.author,
                     audioOnly, 0, "", "", s.trimStart, s.trimEnd, false);
    if audioOnly then p else p.(quality := option.height, ratio := ratio, formatId := option.id)
  }

  datatype Queue = Download | Transcode

  function QueueFor(p: Payload): Queue {
    if p.platform == "youtube" && !p.audioOnly && p.quality > 0 && p.ratio != "" then Transcode else Download
  }

  /** What the download task does with the video it fetched. */
  datatype Work = Generic | Audio | Original | Reencode

  /** `handleDownload` and `runYouTubeDownload`. */
  function WorkFor(p: Payload, transcodeEnabled: bool): Work {
    if p.platform == "youtube" && (p.quality > 0 || p.audioOnly) then
      if p.audioOnly then Audio
      else if p.ratio != "" && transcodeEnabled then Reencode
      else Original
    else Generic
  }

  /** `ratioDimensions`: width and height. */
  function Dimensions(ratio: string, quality: int): (r: Option<(int, int)>)
    ensures r.Some? ==> (if r.value.0 < r.value.1 then r.value.0 else r.value.1) == quality
    ensures r.Some? ==> (ratio == "9_16" <==> r.value.0 < r.value.1) && r.value.0 % 2 == 0 && r.value.1 % 2 == 0
  {
    match ratio
    case "16_9" =>
      (match quality
       case 1080 => Some((1920, 1080)) case 720 => Some((1280, 720)) case 480 => Some((854, 480))
       case 360 => Some((640, 360)) case 240 => Some((426, 240)) case 144 => Some((256, 144))
       case _ => None)
    case "21_9" =>
      (match quality
       case 1080 => Some((2560, 1080)) case 720 => Some((1680, 720)) case 480 => Some((1120, 480))
       case 360 => Some((840, 360)) case 240 => Some((560, 240)) case 144 => Some((336, 144))
       case _ => None)
    case "9_16" =>
      (match quality
       case 1080 => Some((1080, 1920)) case 720 => Some((720, 1280)) case 480 => Some((480, 854))
       case 360 => Some((360, 640)) case 240 => Some((240, 426)) case 144 => Some((144, 256))
       case _ => None)
    case _ => None
  }

  /** The long side of a frame: 16:9 and 9:16 to the nearest even number, 21:9 exactly, but for the widest. */
  lemma FrameShapes(quality: int)
    requires quality in {144, 240, 360, 480, 720, 1080}
    ensures match Dimensions("16_9", quality)
            case Some((w, h)) => h == quality && w % 2 == 0 && -9 <= 9 * w - 16 * h <= 9
            case None => false
    ensures match Dimensions("21_9", quality)
            case Some((w, h)) => h == quality && if h == 1080 then w == 2560 else 9 * w == 21 * h
            case None => false
    ensures match Dimensions("9_16", quality)
            case Some((w, h)) => Dimensions("16_9", quality) == Some((h, w))
            case None => false
  {
  }

  /** What a worker does with a job: the sound alone when it was asked for, a picture of a chosen height in its
      own frame or, with a ratio and transcoding on, in another; any other job goes the general way. */
  lemma WorkMeans(p: Payload, on: bool)
    ensures WorkFor(p, on) == Audio <==> p.platform == "youtube" && p.audioOnly
    ensures WorkFor(p, on) == Generic <==> p.platform != "youtube" || (!p.audioOnly && p.quality <= 0)
    ensures WorkFor(p, on) == Original <==>
              p.platform == "youtube" && !p.audioOnly && p.quality > 0 && (p.ratio == "" || !on)
  {
  }

  /** A job re-encodes to a fixed frame exactly when it was queued for transcoding and transcoding is on, so
      no job of the parallel queue ever does: for every payload, however it was made. */
  lemma ReencodesIff(p: Payload, transcodeEnabled: bool)
    ensures WorkFor(p, transcodeEnabled) == Reencode <==> QueueFor(p) == Transcode && transcodeEnabled
    ensures QueueFor(p) == Transcode <==>
              p.platform == "youtube" && !p.audioOnly && p.quality > 0 && p.ratio != ""
  {
  }

  /** The frame of a job that carries a ratio. */
  predicate Encodable(p: Payload) {
    p.ratio != "" ==> Dimensions(p.ratio, p.quality).Some? && QueueFor(p) == Transcode
  }

  lemma TableComplete(ratio: string, quality: int)
    ensures Dimensions(ratio, quality).Some? <==> ratio in RATIO_NAMES && quality in DEFAULT_HEIGHTS
  {
  }

  /** `startYouTubeDownload`, for an option of a card rendered earlier, perhaps under other settings: the
      job can be encoded, whatever ratio the user stored, and waits on the queue its work needs. */
  method StartDownload(store: Store, s: Session, option: Offer, audioOnly: bool, chosen: Option<string>,
                       noWatermark: bool, up: bool)
    returns (p: Payload, queue: Queue)
    requires Wired(store)
    requires option.height in DEFAULT_HEIGHTS || audioOnly
    ensures Encodable(p) && queue == QueueFor(p)
    ensures queue == Transcode <==> p.ratio != ""
    ensures p.audioOnly == audioOnly
    ensures audioOnly ==> p.quality == 0 && p.ratio == "" && p.formatId == ""
    ensures !audioOnly ==> p.quality == option.height && p.formatId == option.id
    ensures p.ratio != "" <==> !audioOnly && chosen.Some? && chosen.value in Ratios(store, up)
    ensures p.ratio != "" ==> chosen == Some(p.ratio)
    ensures p == Payload(s.url, "youtube", s.chat, s.user, s.message, s.lang, s.title, s.author, p.audioOnly, p.quality,
                         p.ratio, p.formatId, s.trimStart, s.trimEnd, noWatermark)
  {
    var ratio := "";
    if !audioOnly {
      ratio := YouTubeAspectRatio(store, chosen, up);
    }
    p := BuildPayload(s, option, audioOnly, ratio).(noWatermark := noWatermark);
    if p.ratio != "" {
      TableComplete(p.ratio, p.quality);
    }
    queue := QueueFor(p);
  }

  /** A tap on a quality button of a live card. */
  method OnQualityChoice(store: Store, s: Session, height: int, chosen: Option<string>, noWatermark: bool, up: bool)
    returns (job: Option<Payload>)
    requires Wired(store)
    requires forall k :: 0 <= k < |s.options| ==> s.options[k].height in DEFAULT_HEIGHTS
    ensures job.Some? <==> height in Heights(s.options)
    ensures job.Some? ==> Encodable(job.value) && job.value.quality == height && !job.value.audioOnly
    ensures job.Some? ==> (job.value.ratio != "" <==> chosen.Some? && chosen.value in Ratios(store, up))
    ensures job.Some? ==> exists k :: 0 <= k < |s.options| && s.options[k].height == height
                                       && s.options[k].id == job.value.formatId
  {
    var option := OptionFor(s.options, height);
    if option.None? {
      return None;
    }
    var i :| 0 <= i < |s.options| && s.options[i] == option.value;
    assert Heights(s.options)[i] == height;
    var p, _ := StartDownload(store, s, option.value, false, chosen, noWatermark, up);
    job := Some(p);
  }

  /** A Shorts job keeps its frame and never waits behind a transcode. */
  method StartShorts(store: Store, url: string, chat: int, user: int, message: int, lang: string, noWatermark: bool,
                     up: bool)
    returns (p: Payload)
    requires Wired(store)
    ensures QueueFor(p) == Download && p.quality in DEFAULT_HEIGHTS
    ensures Named(Qualities(store, up), p.quality) && forall h :: Named(Qualities(store, up), h) ==> h <= p.quality
    ensures p == Payload(url, "youtube", chat, user, message, lang, "", "", false, p.quality, "", "", 0.0, 0.0,
                         noWatermark)
    ensures forall on :: WorkFor(p, on) == Original
  {
    var top := TopAllowedQuality(store, up);
    p := Payload(url, "youtube", chat, user, message, lang, "", "", false, top, "", "", 0.0, 0.0, noWatermark);
  }
}
