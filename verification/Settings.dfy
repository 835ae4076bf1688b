/** go/internal/runtime/store.go, helpers.go and the edits of go/internal/handler/admin.go: settings an
    administrator types, kept as text in one Redis hash and read back with a type. */
module Settings {
  import opened Text

  datatype Kind = IntKind | BoolKind | EnumKind | ListKind

  datatype Setting = Setting(
    key: string, field: string, kind: Kind, min: int, max: int,
    defInt: int, defBool: bool, defStr: string, allowed: seq<string>)

  datatype Value = IntValue(i: int) | BoolValue(b: bool) | TextValue(s: string)

  datatype Verdict = Fine | NotBool | NotAllowed | BadPart(part: string) | EmptyList | NotInt | BelowMin | AboveMax

  // ---------------------------------------------------------------- text

  /** The value half of `strconv.Atoi`, whose error the callers drop: 0 for a text that is no number, the
      nearest 64-bit integer for one that is out of range. */
  function AtoiValue(s: string): int {
    var signed := s != "" && (s[0] == '-' || s[0] == '+');
    var body := if signed then s[1..] else s;
    if body == "" || !Digits(body) then 0
    else if signed && s[0] == '-' then (if NatValue(body) > 0 - MIN_INT64 then MIN_INT64 else 0 - NatValue(body))
    else if NatValue(body) > MAX_INT64 then MAX_INT64 else NatValue(body)
  }

  lemma AtoiValueOf(s: string)
    requires Atoi(s).Some?
    ensures AtoiValue(s) == Atoi(s).value
  {
  }

  /** Pieces trimmed, empty ones dropped. */
  function Pieces(parts: seq<string>): seq<string> {
    if parts == [] then []
    else
      var p := TrimSpace(parts[0]);
      (if p == "" then [] else [p]) + Pieces(parts[1..])
  }

  function SplitList(raw: string): seq<string> {
    Pieces(Split(raw, ','))
  }

  lemma {:induction false} PiecesAppend(parts: seq<string>, last: string)
    ensures Pieces(parts + [last]) == Pieces(parts) + (if TrimSpace(last) == "" then [] else [TrimSpace(last)])
  {
    if parts != [] {
      PiecesAppend(parts[1..], last);
      assert (parts + [last])[1..] == parts[1..] + [last];
    }
  }

  method SplitParts(raw: string) returns (out: seq<string>)
    ensures out == SplitList(raw)
  {
    var parts := Split(raw, ',');
    out := [];
    for i := 0 to |parts|
      invariant out == Pieces(parts[..i])
    {
      assert parts[..i + 1] == parts[..i] + [parts[i]];
      PiecesAppend(parts[..i], parts[i]);
      var p := TrimSpace(parts[i]);
      if p != "" {
        out := out + [p];
      }
    }
    assert parts[..|parts|] == parts;
  }

  /** What a list entry looks like once it was split off. */
  predicate Entry(p: string) {
    p != "" && Trimmed(p) && Free(p, ',')
  }

  lemma {:induction false} PiecesAreEntries(parts: seq<string>)
    requires forall k :: 0 <= k < |parts| ==> Free(parts[k], ',')
    ensures forall k :: 0 <= k < |Pieces(parts)| ==> Entry(Pieces(parts)[k])
  {
    if parts != [] {
      PiecesAreEntries(parts[1..]);
      TrimSpaceFree(parts[0], ',');
      TrimSpacePiece(parts[0]);
    }
  }

  lemma {:induction false} EntriesArePieces(parts: seq<string>)
    requires forall k :: 0 <= k < |parts| ==> Entry(parts[k])
    ensures Pieces(parts) == parts
  {
    if parts != [] {
      EntriesArePieces(parts[1..]);
      TrimmedFixed(parts[0]);
    }
  }

  /** Joining entries with commas and splitting again changes nothing. */
  lemma {:induction false} EntriesRoundTrip(parts: seq<string>)
    requires forall k :: 0 <= k < |parts| ==> Entry(parts[k])
    ensures SplitList(Join(parts, ',')) == parts
  {
    if parts == [] {
      assert Pieces([""][1..]) == [];
      TrimmedFixed("");
    } else {
      SplitJoin(parts, ',');
      EntriesArePieces(parts);
    }
  }

  lemma SplitListEntries(raw: string)
    ensures forall k :: 0 <= k < |SplitList(raw)| ==> Entry(SplitList(raw)[k])
  {
    SplitPiecesFree(raw, ',');
    PiecesAreEntries(Split(raw, ','));
  }

  lemma {:induction false} JoinTrimmed(parts: seq<string>)
    requires parts != [] && forall k :: 0 <= k < |parts| ==> Entry(parts[k])
    ensures var t := Join(parts, ','); t != "" && !IsSpace(t[0]) && !IsSpace(t[|t| - 1])
  {
    if |parts| > 1 {
      JoinTrimmed(parts[1..]);
    }
  }

  // ---------------------------------------------------------------- one setting

  predicate BoolWord(s: string) {
    s in {"1", "0", "true", "false", "yes", "no", "on", "off"}
  }

  function FirstBad(parts: seq<string>, allowed: seq<string>): Option<string> {
    if parts == [] then None
    else if parts[0] !in allowed then Some(parts[0])
    else FirstBad(parts[1..], allowed)
  }

  lemma {:induction false} FirstBadNone(parts: seq<string>, allowed: seq<string>)
    ensures FirstBad(parts, allowed).None? <==> forall k :: 0 <= k < |parts| ==> parts[k] in allowed
  {
    if parts != [] {
      FirstBadNone(parts[1..], allowed);
      assert forall k :: 0 < k < |parts| ==> parts[k] == parts[1..][k - 1];
    }
  }

  /** `Validate`: what is wrong with a typed text.  A minimum or maximum of zero or less is not checked. */
  function Check(def: Setting, typed: string): Verdict {
    var raw := TrimSpace(typed);
    match def.kind
    case BoolKind => if BoolWord(Lower(raw)) then Fine else NotBool
    case EnumKind => if raw in def.allowed then Fine else NotAllowed
    case ListKind =>
      var bad := FirstBad(SplitList(raw), def.allowed);
      if bad.Some? then BadPart(bad.value) else if raw == "" then EmptyList else Fine
    case IntKind =>
      match Atoi(raw)
      case None => NotInt
      case Some(n) =>
        if def.min > 0 && n < def.min then BelowMin
        else if def.max > 0 && n > def.max then AboveMax
        else Fine
  }

  method Validate(def: Setting, typed: string) returns (r: Verdict)
    ensures r == Check(def, typed)
  {
    var raw := TrimSpace(typed);
    match def.kind {
      case BoolKind =>
        r := if BoolWord(Lower(raw)) then Fine else NotBool;
      case EnumKind =>
        for i := 0 to |def.allowed|
          invariant raw !in def.allowed[..i]
        {
          if raw == def.allowed[i] {
            return Fine;
          }
        }
        r := NotAllowed;
      case ListKind =>
        var parts := SplitParts(raw);
        for i := 0 to |parts|
          invariant FirstBad(parts, def.allowed) == FirstBad(parts[i..], def.allowed)
        {
          if parts[i] !in def.allowed {
            return BadPart(parts[i]);
          }
        }
        r := if raw == "" then EmptyList else Fine;
      case IntKind =>
        var n := Atoi(raw);
        if n.None? {
          r := NotInt;
        } else if def.min > 0 && n.value < def.min {
          r := BelowMin;
        } else if def.max > 0 && n.value > def.max {
          r := AboveMax;
        } else {
          r := Fine;
        }
    }
  }

  function Parse(def: Setting, typed: string): Value {
    var raw := TrimSpace(typed);
    match def.kind
    case BoolKind => BoolValue(Lower(raw) in {"1", "true", "yes", "on"})
    case EnumKind => TextValue(raw)
    case ListKind => TextValue(Join(SplitList(raw), ','))
    case IntKind => IntValue(AtoiValue(raw))
  }

  // ---------------------------------------------------------------- what the check and the parser say

  /** Which words switch a setting on, which off, in any case and with spaces around; no other text passes. */
  lemma BooleanWords(def: Setting, typed: string)
    requires def.kind.BoolKind?
    ensures var w := Lower(TrimSpace(typed));
            && (w in {"1", "true", "yes", "on"} ==>
                  Check(def, typed) == Fine && Parse(def, typed) == BoolValue(true))
            && (w in {"0", "false", "no", "off"} ==>
                  Check(def, typed) == Fine && Parse(def, typed) == BoolValue(false))
            && (w !in {"1", "true", "yes", "on", "0", "false", "no", "off"} ==> Check(def, typed) == NotBool)
  {
  }

  /** An integer is a decimal numeral within the bounds that are positive; the minimum is looked at first. */
  lemma IntegerChecked(def: Setting, typed: string)
    requires def.kind.IntKind?
    ensures Check(def, typed) == NotInt <==> Atoi(TrimSpace(typed)).None?
    ensures Check(def, typed) == BelowMin <==>
              exists n :: Atoi(TrimSpace(typed)) == Some(n) && 0 < def.min && n < def.min
    ensures Check(def, typed) == AboveMax <==>
              exists n :: Atoi(TrimSpace(typed)) == Some(n) && !(0 < def.min && n < def.min) && 0 < def.max < n
    ensures Check(def, typed) == Fine ==> Atoi(TrimSpace(typed)) == Some(Parse(def, typed).i)
    ensures Check(def, typed) in {NotInt, BelowMin, AboveMax, Fine}
  {
    if Atoi(TrimSpace(typed)).Some? {
      AtoiValueOf(TrimSpace(typed));
      assert Atoi(TrimSpace(typed)) == Some(Atoi(TrimSpace(typed)).value);
    }
  }

  /** Entry `k` is the first that is not allowed. */
  predicate FirstOut(parts: seq<string>, allowed: seq<string>, p: string, k: nat) {
    k < |parts| && parts[k] == p && p !in allowed && forall j :: 0 <= j < k ==> parts[j] in allowed
  }

  lemma FirstOutLater(parts: seq<string>, allowed: seq<string>, p: string, k: nat)
    requires parts != [] && parts[0] in allowed
    ensures FirstOut(parts, allowed, p, k + 1) <==> FirstOut(parts[1..], allowed, p, k)
  {
    assert forall j :: 0 <= j < |parts[1..]| ==> parts[1..][j] == parts[j + 1];
    if FirstOut(parts[1..], allowed, p, k) {
      assert forall j :: 0 < j < k + 1 ==> parts[j] == parts[1..][j - 1];
    }
  }

  lemma {:induction false} FirstBadIs(parts: seq<string>, allowed: seq<string>, p: string)
    ensures FirstBad(parts, allowed) == Some(p) <==> exists k: nat :: FirstOut(parts, allowed, p, k)
  {
    if parts != [] {
      FirstBadIs(parts[1..], allowed, p);
      if parts[0] !in allowed {
        if parts[0] == p {
          assert FirstOut(parts, allowed, p, 0);
        }
      } else {
        if k: nat :| FirstOut(parts, allowed, p, k) {
          FirstOutLater(parts, allowed, p, k - 1);
        }
        if k: nat :| FirstOut(parts[1..], allowed, p, k) {
          FirstOutLater(parts, allowed, p, k);
        }
      }
    }
  }

  /** A list is refused for its first entry that is not allowed, or for being blank; its entries are kept. */
  lemma ListChecked(def: Setting, typed: string, p: string)
    requires def.kind.ListKind?
    ensures var parts := SplitList(TrimSpace(typed));
            && (Check(def, typed) == BadPart(p) <==>
                  exists k :: 0 <= k < |parts| && parts[k] == p && p !in def.allowed
                              && forall j :: 0 <= j < k ==> parts[j] in def.allowed)
            && (Check(def, typed) == EmptyList <==>
                  TrimSpace(typed) == "" && forall k :: 0 <= k < |parts| ==> parts[k] in def.allowed)
            && (Check(def, typed) == Fine <==>
                  TrimSpace(typed) != "" && forall k :: 0 <= k < |parts| ==> parts[k] in def.allowed)
            && Parse(def, typed) == TextValue(Join(parts, ','))
  {
    var (parts, allowed) := (SplitList(TrimSpace(typed)), def.allowed);
    FirstBadIs(parts, allowed, p);
    if k :| 0 <= k < |parts| && parts[k] == p && p !in allowed && forall j :: 0 <= j < k ==> parts[j] in allowed {
      assert FirstOut(parts, allowed, p, k);
    }
    FirstBadNone(SplitList(TrimSpace(typed)), def.allowed);
  }

  lemma ChoiceChecked(def: Setting, typed: string)
    requires def.kind.EnumKind?
    ensures Check(def, typed) == if TrimSpace(typed) in def.allowed then Fine else NotAllowed
    ensures Parse(def, typed) == TextValue(TrimSpace(typed))
  {
  }

  /** A text that is no number is read as 0, and one beyond 64 bits as the nearest 64-bit integer. */
  lemma AtoiValueElse(digits: string)
    requires digits != "" && Digits(digits) && NatValue(digits) > MAX_INT64
    ensures AtoiValue(digits) == AtoiValue("+" + digits) == 0x7FFF_FFFF_FFFF_FFFF
    ensures NatValue(digits) > 0x8000_0000_0000_0000 ==> AtoiValue("-" + digits) == -0x8000_0000_0000_0000
    ensures AtoiValue("") == AtoiValue("-") == AtoiValue("x" + digits) == 0
  {
    assert IsDigit(digits[0]);
    assert ("+" + digits)[1..] == digits && ("-" + digits)[1..] == digits && ("-")[1..] == "";
    assert !IsDigit(("x" + digits)[0]);
  }

  /** `%v`. */
  function Show(v: Value): string {
    match v
    case IntValue(i) => PrintInt(i)
    case BoolValue(b) => if b then "true" else "false"
    case TextValue(s) => s
  }

  function Serialise(v: Value, def: Setting): string {
    if def.kind.BoolKind? then (if v.BoolValue? && v.b then "1" else "0") else Show(v)
  }

  function Deserialise(raw: string, def: Setting): Value {
    match def.kind
    case BoolKind => BoolValue(raw == "1" || Lower(raw) == "true")
    case EnumKind => TextValue(raw)
    case ListKind => TextValue(raw)
    case IntKind => IntValue(AtoiValue(raw))
  }

  /** A stored boolean is on for `1` and for `true` in any case, and off for every other text. */
  lemma StoredBoolean(def: Setting, raw: string)
    requires def.kind.BoolKind?
    ensures Deserialise(raw, def) == BoolValue(
              raw == "1" || (|raw| == 4 && raw[0] in "tT" && raw[1] in "rR" && raw[2] in "uU" && raw[3] in "eE"))
  {
    assert Lower(raw) == "true" <==>
           |raw| == 4 && Lower(raw)[0] == 't' && Lower(raw)[1] == 'r' && Lower(raw)[2] == 'u' && Lower(raw)[3] == 'e';
  }

  /** A stored choice or list is read as it stands, and a stored numeral as its number. */
  lemma StoredText(def: Setting, raw: string)
    ensures def.kind.EnumKind? || def.kind.ListKind? ==> Deserialise(raw, def) == TextValue(raw)
    ensures def.kind.IntKind? && Atoi(raw).Some? ==> Deserialise(raw, def) == IntValue(Atoi(raw).value)
  {
    if Atoi(raw).Some? {
      AtoiValueOf(raw);
    }
  }

  predicate InBounds(def: Setting, n: int) {
    (def.min > 0 ==> def.min <= n) && (def.max > 0 ==> n <= def.max)
  }

  /** What a well-kept hash holds for a setting. */
  predicate Sound(def: Setting, text: string) {
    match def.kind
    case BoolKind => text == "1" || text == "0"
    case EnumKind => TrimSpace(text) in def.allowed
    case ListKind =>
      && text == Join(SplitList(text), ',')
      && forall k :: 0 <= k < |SplitList(text)| ==> SplitList(text)[k] in def.allowed
    case IntKind => Atoi(text).Some? && PrintInt(Atoi(text).value) == text && InBounds(def, Atoi(text).value)
  }

  function Stored(def: Setting, typed: string): string {
    Serialise(Parse(def, typed), def)
  }

  /** A printed integer reads as itself, trimmed or not. */
  lemma PrintedReads(n: int)
    requires IsInt64(n)
    ensures Atoi(PrintInt(n)) == Some(n) && AtoiValue(PrintInt(n)) == n && TrimSpace(PrintInt(n)) == PrintInt(n)
  {
    AtoiPrint(n);
    AtoiValueOf(PrintInt(n));
    PrintIntShape(n);
    TrimmedFixed(PrintInt(n));
  }

  lemma IntStored(def: Setting, typed: string)
    requires def.kind.IntKind? && Check(def, typed).Fine?
    ensures Atoi(TrimSpace(typed)).Some?
    ensures var n := Atoi(TrimSpace(typed)).value;
            Stored(def, typed) == PrintInt(n) && Parse(def, typed) == IntValue(n) && InBounds(def, n)
  {
    AtoiValueOf(TrimSpace(typed));
  }

  lemma IntTrip(def: Setting, typed: string)
    requires def.kind.IntKind? && Check(def, typed).Fine?
    ensures Deserialise(Stored(def, typed), def) == Parse(def, typed)
    ensures Sound(def, Stored(def, typed)) && Check(def, Stored(def, typed)).Fine?
  {
    IntStored(def, typed);
    PrintedReads(Atoi(TrimSpace(typed)).value);
  }

  lemma BoolTrip(def: Setting, typed: string)
    requires def.kind.BoolKind? && Check(def, typed).Fine?
    ensures Deserialise(Stored(def, typed), def) == Parse(def, typed)
    ensures Sound(def, Stored(def, typed)) && Check(def, Stored(def, typed)).Fine?
  {
    var t := Stored(def, typed);
    assert t == "1" || t == "0";
    TrimmedFixed(t);
    assert Lower(t) == t;
  }

  lemma EnumTrip(def: Setting, typed: string)
    requires def.kind.EnumKind? && Check(def, typed).Fine?
    ensures Deserialise(Stored(def, typed), def) == Parse(def, typed)
    ensures Sound(def, Stored(def, typed)) && Check(def, Stored(def, typed)).Fine? && Stored(def, typed) in def.allowed
  {
    TrimSpacePiece(typed);
    TrimmedFixed(TrimSpace(typed));
  }

  lemma ListTrip(def: Setting, typed: string)
    requires def.kind.ListKind? && Check(def, typed).Fine?
    ensures Deserialise(Stored(def, typed), def) == Parse(def, typed)
    ensures Sound(def, Stored(def, typed))
    ensures SplitList(Stored(def, typed)) == SplitList(TrimSpace(typed))
    ensures Check(def, Stored(def, typed)).Fine? <==> SplitList(TrimSpace(typed)) != []
  {
    var parts := SplitList(TrimSpace(typed));
    var t := Join(parts, ',');
    SplitListEntries(TrimSpace(typed));
    EntriesRoundTrip(parts);
    FirstBadNone(parts, def.allowed);
    if parts != [] {
      JoinTrimmed(parts);
    }
    TrimmedFixed(t);
  }

  /** A text that passes the check survives parsing, storing and reading back; what is stored is sound and
      would pass the check again, except for a list of nothing but commas, which is stored empty. */
  lemma SettingRoundTrip(def: Setting, typed: string)
    requires Check(def, typed).Fine?
    ensures Deserialise(Stored(def, typed), def) == Parse(def, typed)
    ensures Sound(def, Stored(def, typed))
    ensures Check(def, Stored(def, typed)).Fine? <==> !(def.kind.ListKind? && SplitList(TrimSpace(typed)) == [])
  {
    match def.kind
    case IntKind => IntTrip(def, typed);
    case BoolKind => BoolTrip(def, typed);
    case EnumKind => EnumTrip(def, typed);
    case ListKind => ListTrip(def, typed);
  }

  /** A lone comma passes the check of every list setting and is stored as the empty text. */
  lemma {:induction false} CommaAccepted(def: Setting)
    requires def.kind.ListKind?
    ensures Check(def, ",").Fine? && Stored(def, ",") == ""
  {
    TrimmedFixed(",");
    TrimmedFixed("");
    SplitHead("", ',', "");
    assert "" + [','] + "" == ",";
    assert Split(",", ',') == ["", ""];
    assert ["", ""][1..] == [""] && [""][1..] == [];
    assert Pieces([""]) == [];
    assert Pieces(["", ""]) == [];
  }

  /** The stated minimum of an integer setting binds every accepted text exactly when it is positive, or
      when no 64-bit integer lies below it. */
  lemma MinimumKeptIff(def: Setting)
    requires def.kind.IntKind? && IsInt64(def.min)
    ensures (forall typed :: Check(def, typed).Fine? ==> def.min <= Parse(def, typed).i)
       <==> def.min > 0 || def.min == MIN_INT64
  {
    forall typed | Check(def, typed).Fine? && (def.min > 0 || def.min == MIN_INT64)
      ensures def.min <= Parse(def, typed).i
    {
      AtoiValueOf(TrimSpace(typed));
    }
    if MIN_INT64 < def.min <= 0 {
      var typed := PrintInt(def.min - 1);
      AtoiPrint(def.min - 1);
      PrintIntShape(def.min - 1);
      TrimmedFixed(typed);
      AtoiValueOf(typed);
      assert Check(def, typed).Fine? && Parse(def, typed).i == def.min - 1;
    }
  }

  // ---------------------------------------------------------------- the store

  /** `defaultFromConfig`: the configuration field when it is one of the listed ones. */
  function Default(def: Setting, config: map<string, Value>): Value {
    if def.field in config then config[def.field]
    else if (def.kind.EnumKind? || def.kind.ListKind?) && def.defStr != "" then TextValue(def.defStr)
    else if def.kind.BoolKind? then BoolValue(def.defBool)
    else IntValue(def.defInt)
  }

  function Current(def: Setting, hash: map<string, string>, config: map<string, Value>): Value {
    if def.key in hash then Deserialise(hash[def.key], def) else Default(def, config)
  }

  /** When Redis does not answer, the default is read. */
  function Read(def: Setting, hash: map<string, string>, config: map<string, Value>, up: bool): Value {
    if up then Current(def, hash, config) else Default(def, config)
  }

  function IntOf(v: Value, fallback: int): int {
    if v.IntValue? then v.i else fallback
  }

  /** `CurrentStringList` on a value: an empty text means the caller's fallback. */
  function ListOf(v: Value, fallback: seq<string>): seq<string> {
    if v.TextValue? && v.s != "" then SplitList(v.s) else fallback
  }

  predicate Drawn(values: seq<string>, allowed: seq<string>) {
    values != [] && forall k :: 0 <= k < |values| ==> values[k] in allowed
  }

  /** A list setting whose default, if it has one, is a list of allowed values. */
  predicate ListDefault(def: Setting, config: map<string, Value>) {
    def.kind.ListKind? && def.field !in config && (def.defStr != "" ==> Drawn(SplitList(def.defStr), def.allowed))
  }

  /** The effective list is never empty and never leaves the allowed values, whatever is stored. */
  lemma {:induction false} EffectiveList(def: Setting, hash: map<string, string>, config: map<string, Value>,
                                         fallback: seq<string>)
    requires def.key in hash ==> Sound(def, hash[def.key])
    requires ListDefault(def, config) && Drawn(fallback, def.allowed)
    ensures Drawn(ListOf(Current(def, hash, config), fallback), def.allowed)
  {
    if def.key in hash && hash[def.key] != "" {
      assert Join([], ',') == "";
      assert SplitList(hash[def.key]) != [];
    }
  }

  /** A stored integer is within every bound that is checked, and is what reading gives. */
  lemma StoredInteger(def: Setting, hash: map<string, string>, config: map<string, Value>)
    requires def.kind.IntKind? && def.key in hash && Sound(def, hash[def.key])
    ensures Current(def, hash, config).IntValue? && InBounds(def, Current(def, hash, config).i)
  {
    AtoiValueOf(hash[def.key]);
  }

  /** A stored choice is one of the allowed ones, spaces aside, and is what reading gives. */
  lemma StoredChoice(def: Setting, hash: map<string, string>, config: map<string, Value>)
    requires def.kind.EnumKind? && def.key in hash && Sound(def, hash[def.key])
    ensures Current(def, hash, config) == TextValue(hash[def.key]) && TrimSpace(hash[def.key]) in def.allowed
  {
  }

  /** What the boolean toggle stores: it does not look at the kind of setting. */
  function Toggled(def: Setting, hash: map<string, string>, config: map<string, Value>): string {
    var v := Current(def, hash, config);
    Serialise(BoolValue(!(v.BoolValue? && v.b)), def)
  }

  /** On a boolean setting the toggle makes the effective value the other one. */
  lemma ToggleNegates(def: Setting, hash: map<string, string>, config: map<string, Value>, b: bool)
    requires def.kind.BoolKind? && Current(def, hash, config) == BoolValue(b)
    ensures Current(def, hash[def.key := Toggled(def, hash, config)], config) == BoolValue(!b)
    ensures Toggled(def, hash, config) == if b then "0" else "1"
  {
    assert Lower("0")[0] == '0';
  }

  /** The toggle leaves the hash well-kept exactly for boolean settings, and for texts that allow its word. */
  lemma ToggleSoundIff(def: Setting, hash: map<string, string>, config: map<string, Value>)
    requires !def.kind.BoolKind? ==> !Current(def, hash, config).BoolValue?
    ensures Sound(def, Toggled(def, hash, config))
       <==> def.kind.BoolKind? || (!def.kind.IntKind? && "true" in def.allowed)
  {
    TrimmedFixed("true");
    var t := Toggled(def, hash, config);
    if !def.kind.BoolKind? {
      assert t == "true";
      assert Free(t, ',');
      SplitFree(t, ',');
      EntriesArePieces([t]);
      assert SplitList(t) == [t];
      assert !IsDigit(t[0]);
    }
  }

  /** The keys among the first `n` whose deletion was answered. */
  function Deleted(keys: seq<string>, up: seq<bool>, n: nat): set<string>
    requires n <= |keys| == |up|
  {
    set i | 0 <= i < n && up[i] :: keys[i]
  }

  lemma DeletedMore(keys: seq<string>, up: seq<bool>, n: nat)
    requires n < |keys| == |up|
    ensures Deleted(keys, up, n + 1) == Deleted(keys, up, n) + if up[n] then {keys[n]} else {}
  {
  }

  /** Forgetting one more key. */
  lemma ForgetMore(hash: map<string, string>, keys: seq<string>, up: seq<bool>, n: nat)
    requires n < |keys| == |up|
    ensures hash - Deleted(keys, up, n + 1)
         == if up[n] then hash - Deleted(keys, up, n) - {keys[n]} else hash - Deleted(keys, up, n)
  {
    DeletedMore(keys, up, n);
  }

  class Store {
    const registry: map<string, Setting>
    const config: map<string, Value>
    var hash: map<string, string>

    ghost predicate Valid()
      reads this
    {
      && (forall k :: k in registry ==> registry[k].key == k)
      && (forall k :: k in hash ==> k in registry && Sound(registry[k], hash[k]))
    }

    constructor (registry: map<string, Setting>, config: map<string, Value>)
      requires forall k :: k in registry ==> registry[k].key == k
      ensures Valid() && hash == map[] && this.registry == registry && this.config == config
    {
      this.registry := registry;
      this.config := config;
      hash := map[];
    }

    /** `up` says whether Redis answered. */
    method CurrentValue(def: Setting, up: bool) returns (v: Value)
      ensures v == Read(def, hash, config, up)
      ensures up && def.key in hash ==> v == Deserialise(hash[def.key], def)
      ensures !up || def.key !in hash ==>
                v == if def.field in config then config[def.field]
                     else if def.kind.EnumKind? && def.defStr != "" then TextValue(def.defStr)
                     else if def.kind.ListKind? && def.defStr != "" then TextValue(def.defStr)
                     else if def.kind.BoolKind? then BoolValue(def.defBool) else IntValue(def.defInt)
    {
      if up && def.key in hash {
        return Deserialise(hash[def.key], def);
      }
      v := Default(def, config);
    }

    method CurrentInt(key: string, fallback: int, up: bool) returns (n: int)
      requires Valid()
      ensures up && key in hash && registry[key].kind.IntKind? ==>
                && (registry[key].min > 0 ==> registry[key].min <= n)
                && (registry[key].max > 0 ==> n <= registry[key].max)
                && Atoi(hash[key]) == Some(n)
      ensures key !in registry ==> n == fallback
      ensures key in registry ==> n == IntOf(Read(registry[key], hash, config, up), fallback)
    {
      if key !in registry {
        return fallback;
      }
      var v := CurrentValue(registry[key], up);
      if up && key in hash && registry[key].kind.IntKind? {
        StoredInteger(registry[key], hash, config);
        AtoiValueOf(hash[key]);
      }
      n := if v.IntValue? then v.i else fallback;
    }

    method CurrentStringList(key: string, fallback: seq<string>, up: bool) returns (values: seq<string>)
      requires Valid()
      ensures key in registry && ListDefault(registry[key], config) && Drawn(fallback, registry[key].allowed)
              ==> values != [] && forall k :: 0 <= k < |values| ==> values[k] in registry[key].allowed
      ensures key in registry ==> values == ListOf(Read(registry[key], hash, config, up), fallback)
      ensures key !in registry ==> values == fallback
    {
      if key !in registry {
        return fallback;
      }
      var def := registry[key];
      var v := CurrentValue(def, up);
      if ListDefault(def, config) && Drawn(fallback, def.allowed) {
        EffectiveList(def, if up then hash else map[], config, fallback);
      }
      if v.TextValue? && v.s != "" {
        values := SplitParts(v.s);
      } else {
        values := fallback;
      }
    }

    method SetValue(key: string, value: Value, up: bool) returns (ok: bool)
      modifies this
      ensures ok == (key in registry && up)
      ensures hash == if ok then old(hash)[key := Serialise(value, registry[key])] else old(hash)
    {
      if key !in registry || !up {
        return false;
      }
      hash := hash[key := Serialise(value, registry[key])];
      ok := true;
    }

    method Reset(key: string, up: bool)
      requires Valid()
      modifies this
      ensures Valid() && hash == if up then old(hash) - {key} else old(hash)
    {
      if up {
        hash := hash - {key};
      }
    }

    method ResetAll(up: bool)
      requires Valid()
      modifies this
      ensures Valid() && hash == if up then map[] else old(hash)
    {
      if up {
        hash := map[];
      }
    }

    /** The loop of the per-service reset; `up[i]` answers the i-th deletion. */
    method ResetService(keys: seq<string>, up: seq<bool>)
      requires Valid() && |up| == |keys|
      modifies this
      ensures Valid() && hash == old(hash) - Deleted(keys, up, |keys|)
    {
      for i := 0 to |keys|
        invariant Valid() && hash == old(hash) - Deleted(keys, up, i)
      {
        ForgetMore(old(hash), keys, up, i);
        Reset(keys[i], up[i]);
      }
    }

    /** `adminSaveEdit`: a typed text. */
    method SaveEdit(key: string, typed: string, up: bool) returns (r: Option<Verdict>)
      requires Valid()
      modifies this
      ensures Valid()
      ensures r == if key in registry then Some(Check(registry[key], typed)) else None
      ensures r == Some(Fine) && up ==> hash == old(hash)[key := Stored(registry[key], typed)]
      ensures r == Some(Fine) && up ==> Current(registry[key], hash, config) == Parse(registry[key], typed)
      ensures r != Some(Fine) || !up ==> hash == old(hash)
    {
      if key !in registry {
        return None;
      }
      var verdict := Validate(registry[key], typed);
      if verdict.Fine? {
        SettingRoundTrip(registry[key], typed);
        var _ := SetValue(key, Parse(registry[key], typed), up);
      }
      r := Some(verdict);
    }

    /** `adminSetEnum`: a button's value, stored as it came. */
    method SetEnum(key: string, value: string, up: bool)
      requires Valid()
      modifies this
      ensures Valid()
      ensures var accepted := key in registry && registry[key].kind.EnumKind? && Check(registry[key], value).Fine?;
              hash == if accepted && up then old(hash)[key := value] else old(hash)
    {
      if key !in registry || !registry[key].kind.EnumKind? {
        return;
      }
      var verdict := Validate(registry[key], value);
      if !verdict.Fine? {
        return;
      }
      var _ := SetValue(key, TextValue(value), up);
    }

    /** `adminToggleBool`. */
    method ToggleBool(key: string, up: bool, written: bool)
      requires Valid()
      modifies this
      ensures key in registry && registry[key].kind.BoolKind? ==> Valid()
      ensures key in registry && up && written ==> hash == old(hash)[key := Toggled(registry[key], old(hash), config)]
      ensures key in registry && registry[key].kind.BoolKind? && written ==>
                hash == old(hash)[key := if Read(registry[key], old(hash), config, up) == BoolValue(true) then "0"
                          else "1"]
      ensures key !in registry || !written ==> hash == old(hash)
    {
      if key !in registry {
        return;
      }
      var v := CurrentValue(registry[key], up);
      var cur := v.BoolValue? && v.b;
      var _ := SetValue(key, BoolValue(!cur), written);
    }
  }

  /** An enum button keeps the effective value among the allowed ones exactly when its text is trimmed. */
  lemma EnumButtonIff(def: Setting, value: string)
    requires def.kind.EnumKind? && Check(def, value).Fine?
    requires forall k :: 0 <= k < |def.allowed| ==> Trimmed(def.allowed[k])
    ensures value in def.allowed <==> Trimmed(value)
  {
    if Trimmed(value) {
      TrimmedFixed(value);
    }
  }
}
