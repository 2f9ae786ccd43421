/**
 * The player's reading of a raw-PCM MIME type such as `audio/L16;rate=24000` or
 * `audio/pcm;rate=16000;channels=2`: the sample size comes from the `audio/L<n>`
 * subtype, the sample rate and channel count from `rate=` and `channels=`
 * parameters, and JavaScript's `||` supplies the defaults (rate 0, one channel,
 * 16 bits) whenever the parsed value is missing, NaN or 0.
 */
module PcmMime {
  import opened Wrappers
  import opened SeqFacts
  import opened JsText

  datatype PcmFormat = PcmFormat(sampleRate: int, channels: int, bitsPerSample: int)

  /** A format the player accepts: every field positive. */
  predicate Positive(f: PcmFormat) {
    f.sampleRate > 0 && f.channels > 0 && f.bitsPerSample > 0
  }

  /** The fields found so far; None is a field the text has not set. */
  datatype Partial = Partial(sampleRate: Option<JsNumber>, channels: Option<JsNumber>, bitsPerSample: Option<JsNumber>)

  const DefaultSampleRate := 0
  const DefaultChannels := 1
  const DefaultBitsPerSample := 16

  /**
   * `parsed || fallback` on a possibly missing number: the result is the number
   * found or the default, a truthy number wins, and a truthy default never
   * gives way to 0 or NaN.
   */
  function OrDefault(o: Option<JsNumber>, fallback: int): (v: int)
    ensures v == fallback || o == Some(Num(v))
    ensures o.Some? && Truthy(o.value) ==> v == o.value.value
    ensures fallback != 0 ==> v != 0
  {
    if o.Some? && Truthy(o.value) then o.value.value else fallback
  }

  /** The parameter name: the text before the first `=`, trimmed and lower-cased. */
  function ParamKey(param: string): string {
    Lower(Trim(Split(param, '=')[0]))
  }

  /**
   * The parameter value: the text between the first and second `=`, trimmed and
   * lower-cased; a missing value reads as "", which is just as falsy as undefined.
   */
  function ParamValue(param: string): string {
    var pieces := Split(param, '=');
    if |pieces| >= 2 then Lower(Trim(pieces[1])) else ""
  }

  /** One `;`-separated parameter: `rate` and `channels` with a non-empty value are read, the rest ignored. */
  function ApplyParam(p: Partial, param: string): Partial {
    var key, value := ParamKey(param), ParamValue(param);
    if key == "rate" && value != "" then p.(sampleRate := Some(ParseInt(value)))
    else if key == "channels" && value != "" then p.(channels := Some(ParseInt(value)))
    else p
  }

  /** The parameters in order; a later one overrides an earlier one. */
  function ApplyParams(p: Partial, params: seq<string>): Partial
    decreases |params|
  {
    if params == [] then p else ApplyParams(ApplyParam(p, params[0]), params[1..])
  }

  /** The subtype's sample size: the number after `audio/l`, up to the first `;`, when it parses. */
  function BitsFromSubtype(lower: string): Option<JsNumber>
    requires StartsWith(lower, "audio/l")
  {
    var bits := ParseInt(Split(lower[7..], ';')[0]);
    if bits.NaN? then None else Some(bits)
  }

  /**
   * The format a MIME type describes, or None for an empty string, a type that
   * is neither `audio/l…` nor `audio/pcm…`, or a result with a field that is not
   * positive after the defaults are applied.
   */
  function ParsePcmMimeType(mimeType: string): (r: Option<PcmFormat>)
    ensures mimeType == "" ==> r.None?
    ensures !StartsWith(Lower(mimeType), "audio/l") && !StartsWith(Lower(mimeType), "audio/pcm") ==> r.None?
    ensures r.Some? ==> Positive(r.value)
  {
    if mimeType == "" then None
    else
      var lower := Lower(mimeType);
      if !StartsWith(lower, "audio/l") && !StartsWith(lower, "audio/pcm") then None
      else
        var preset := if StartsWith(lower, "audio/l") then BitsFromSubtype(lower) else None;
        Finish(ApplyParams(Partial(None, None, preset), Split(mimeType, ';')[1..]))
  }

  /** The fields found, each falling back to its default when it is missing, 0 or NaN. */
  function WithDefaults(parsed: Partial): PcmFormat {
    PcmFormat(OrDefault(parsed.sampleRate, DefaultSampleRate),
              OrDefault(parsed.channels, DefaultChannels),
              OrDefault(parsed.bitsPerSample, DefaultBitsPerSample))
  }

  /**
   * The last step of the parse: the defaulted format is accepted exactly when
   * every field is positive, and is then returned as it is.
   */
  function Finish(parsed: Partial): (r: Option<PcmFormat>)
    ensures r.Some? ==> Positive(r.value)
    ensures r.Some? <==> Positive(WithDefaults(parsed))
    ensures Positive(WithDefaults(parsed)) ==> r == Some(WithDefaults(parsed))
  {
    var f := WithDefaults(parsed);
    if Positive(f) then Some(f) else None
  }

  // ---------------------------------------------------------------- properties

  predicate SetsRate(param: string) {
    ParamKey(param) == "rate" && ParamValue(param) != ""
  }

  /** Without a `rate` parameter the sample rate is never set. */
  lemma {:induction false} ApplyParamsNoRate(p: Partial, params: seq<string>)
    requires forall i :: 0 <= i < |params| ==> !SetsRate(params[i])
    ensures ApplyParams(p, params).sampleRate == p.sampleRate
    decreases |params|
  {
    if params != [] {
      ApplyParamsNoRate(ApplyParam(p, params[0]), params[1..]);
    }
  }

  /** A sample rate is mandatory: a type without a non-empty `rate` parameter is refused. */
  lemma NoRateRefused(mimeType: string)
    requires forall i :: 1 <= i < |Split(mimeType, ';')| ==> !SetsRate(Split(mimeType, ';')[i])
    ensures ParsePcmMimeType(mimeType).None?
  {
    var params := Split(mimeType, ';')[1..];
    var lower := Lower(mimeType);
    if mimeType != "" && (StartsWith(lower, "audio/l") || StartsWith(lower, "audio/pcm")) {
      var preset := if StartsWith(lower, "audio/l") then BitsFromSubtype(lower) else None;
      ApplyParamsNoRate(Partial(None, None, preset), params);
    }
  }

  /** The parameter sets `key`: its name is `key` and its value is not empty. */
  predicate SetsKey(param: string, key: string) {
    ParamKey(param) == key && ParamValue(param) != ""
  }

  /** The number the last parameter that sets `key` gives, read from the end of the list. */
  function LastValue(params: seq<string>, key: string): Option<JsNumber>
    decreases |params|
  {
    if params == [] then None
    else if SetsKey(params[|params| - 1], key) then Some(ParseInt(ParamValue(params[|params| - 1])))
    else LastValue(params[..|params| - 1], key)
  }

  /**
   * Applying the parameters in order leaves each of `rate` and `channels` at the
   * value of the last parameter that sets it, and the sample size untouched.
   */
  lemma {:induction false} ApplyParamsLast(p: Partial, params: seq<string>)
    ensures var q := ApplyParams(p, params);
      q.sampleRate == (if LastValue(params, "rate").Some? then LastValue(params, "rate") else p.sampleRate)
      && q.channels == (if LastValue(params, "channels").Some? then LastValue(params, "channels") else p.channels)
      && q.bitsPerSample == p.bitsPerSample
    decreases |params|
  {
    if params != [] {
      var n := |params| - 1;
      var init, last := params[..n], params[n];
      InitThenLast(params);
      ApplyParamsLast(p, init);
      ApplyParamsSnoc(p, init, last);
      ApplyParamFields(ApplyParams(p, init), last);
      LastValueSnoc(params, "rate");
      LastValueSnoc(params, "channels");
    }
  }

  /** The last parameter decides when it sets the key; otherwise the ones before it do. */
  lemma LastValueSnoc(params: seq<string>, key: string)
    requires params != []
    ensures var n := |params| - 1;
      LastValue(params, key) == if SetsKey(params[n], key) then Some(ParseInt(ParamValue(params[n])))
                                else LastValue(params[..n], key)
  {
  }

  /** One parameter sets the field it names, and only that one. */
  lemma ApplyParamFields(p: Partial, param: string)
    ensures var q := ApplyParam(p, param);
      q.sampleRate == (if SetsKey(param, "rate") then Some(ParseInt(ParamValue(param))) else p.sampleRate)
      && q.channels == (if SetsKey(param, "channels") then Some(ParseInt(ParamValue(param))) else p.channels)
      && q.bitsPerSample == p.bitsPerSample
  {
    assert "channels" != "rate" by { assert |"channels"| != |"rate"|; }
  }

  /** Applying one more parameter at the end is one more `ApplyParam`. */
  lemma {:induction false} ApplyParamsSnoc(p: Partial, params: seq<string>, last: string)
    ensures ApplyParams(p, params + [last]) == ApplyParam(ApplyParams(p, params), last)
    decreases |params|
  {
    if params == [] {
      assert [] + [last] == [last];
      assert [last][1..] == [];
    } else {
      ApplyParamsSnoc(ApplyParam(p, params[0]), params[1..], last);
      ConsThenAppend(params, [last]);
    }
  }

  /** A rate that parses to 0 or not at all is replaced by the default 0, and the type is refused. */
  lemma ZeroOrNaNRateRefused(mimeType: string)
    requires var r := LastValue(Split(mimeType, ';')[1..], "rate"); r.Some? && !Truthy(r.value)
    ensures ParsePcmMimeType(mimeType).None?
  {
    var lower := Lower(mimeType);
    if mimeType != "" && (StartsWith(lower, "audio/l") || StartsWith(lower, "audio/pcm")) {
      var preset := if StartsWith(lower, "audio/l") then BitsFromSubtype(lower) else None;
      ApplyParamsLast(Partial(None, None, preset), Split(mimeType, ';')[1..]);
    }
  }

  /**
   * A type that parses takes its rate from the last `rate` parameter; its channel
   * count from the last `channels` parameter, or 1 when there is none or it
   * reads as 0 or NaN; its sample size from the `audio/L<n>` subtype, or 16 for
   * `audio/pcm` or when n reads as 0 or NaN.
   */
  lemma DefaultsApply(mimeType: string)
    requires ParsePcmMimeType(mimeType).Some?
    ensures var f := ParsePcmMimeType(mimeType).value;
      var params := Split(mimeType, ';')[1..];
      var rate, channels := LastValue(params, "rate"), LastValue(params, "channels");
      var bits := if StartsWith(Lower(mimeType), "audio/l") then ParseInt(Split(Lower(mimeType)[7..], ';')[0]) else NaN;
      rate.Some? && Truthy(rate.value) && f.sampleRate == rate.value.value
      && f.channels == (if channels.Some? && Truthy(channels.value) then channels.value.value else DefaultChannels)
      && f.bitsPerSample == (if Truthy(bits) then bits.value else DefaultBitsPerSample)
  {
    var lower := Lower(mimeType);
    var preset := if StartsWith(lower, "audio/l") then BitsFromSubtype(lower) else None;
    ApplyParamsLast(Partial(None, None, preset), Split(mimeType, ';')[1..]);
  }

  /**
   * The converse of `DefaultsApply`: a non-empty `audio/l…` or `audio/pcm…` type
   * whose last `rate` parameter reads as a positive number, and whose channel
   * count and sample size stay positive after the defaults, parses to exactly
   * those values.
   */
  lemma RecognisedTypeParses(mimeType: string)
    requires mimeType != ""
    requires StartsWith(Lower(mimeType), "audio/l") || StartsWith(Lower(mimeType), "audio/pcm")
    requires var rate := LastValue(Split(mimeType, ';')[1..], "rate"); rate.Some? && rate.value.Num? && rate.value.value > 0
    requires var channels := LastValue(Split(mimeType, ';')[1..], "channels");
      channels.Some? && Truthy(channels.value) ==> channels.value.value > 0
    requires var bits := if StartsWith(Lower(mimeType), "audio/l") then ParseInt(Split(Lower(mimeType)[7..], ';')[0]) else NaN;
      Truthy(bits) ==> bits.value > 0
    ensures var params := Split(mimeType, ';')[1..];
      var rate, channels := LastValue(params, "rate"), LastValue(params, "channels");
      var bits := if StartsWith(Lower(mimeType), "audio/l") then ParseInt(Split(Lower(mimeType)[7..], ';')[0]) else NaN;
      ParsePcmMimeType(mimeType) == Some(PcmFormat(
        rate.value.value,
        if channels.Some? && Truthy(channels.value) then channels.value.value else DefaultChannels,
        if Truthy(bits) then bits.value else DefaultBitsPerSample))
  {
    var lower := Lower(mimeType);
    var preset := if StartsWith(lower, "audio/l") then BitsFromSubtype(lower) else None;
    var parsed := ApplyParams(Partial(None, None, preset), Split(mimeType, ';')[1..]);
    ApplyParamsLast(Partial(None, None, preset), Split(mimeType, ';')[1..]);
    assert ParsePcmMimeType(mimeType) == Finish(parsed);
  }

  /**
   * `audio/pcm;rate=<rate>`, the form the live API sends, parses to that rate with
   * the default single channel and 16 bits per sample.
   */
  lemma PcmRateOnlyParses(rate: nat)
    requires rate > 0
    ensures ParsePcmMimeType("audio/pcm" + [';'] + Param("rate", Decimal(rate)))
         == Some(PcmFormat(rate, DefaultChannels, DefaultBitsPerSample))
  {
    var rateParam := Param("rate", Decimal(rate));
    var m := "audio/pcm" + [';'] + rateParam;
    AppendAssociates("audio/pcm", [';'], rateParam);
    PcmSubtype([';'] + rateParam);
    PcmTypeFinishes(m);
    PcmRateOnlyApply(rate);
  }

  /** The only parameter of `audio/pcm;rate=<rate>` sets the rate and nothing else. */
  lemma PcmRateOnlyApply(rate: nat)
    ensures ApplyParams(Partial(None, None, None), Split("audio/pcm" + [';'] + Param("rate", Decimal(rate)), ';')[1..])
         == Partial(Some(Num(rate)), None, None)
  {
    var rateParam := Param("rate", Decimal(rate));
    var m := "audio/pcm" + [';'] + rateParam;
    NoSemicolonInParam("rate", Decimal(rate));
    SplitNoSep(rateParam, ';');
    SplitAt("audio/pcm", ';', rateParam);
    assert Split(m, ';')[1..] == [rateParam];
    assert [rateParam][1..] == [];
    RateParam(Partial(None, None, None), rate);
  }

  /** An `audio/pcm` type has no preset sample size: it is the parameters and the defaults. */
  lemma PcmTypeFinishes(m: string)
    requires m != ""
    requires !StartsWith(Lower(m), "audio/l") && StartsWith(Lower(m), "audio/pcm")
    ensures ParsePcmMimeType(m) == Finish(ApplyParams(Partial(None, None, None), Split(m, ';')[1..]))
  {
  }

  /** A `key=value` parameter. */
  function Param(key: string, value: string): string {
    key + ['='] + value
  }

  /** The canonical text of a format, `audio/L<bits>;rate=<rate>;channels=<channels>`. */
  function Descriptor(f: PcmFormat): string
    requires Positive(f)
  {
    "audio/L" + Decimal(f.bitsPerSample) + [';'] + Param("rate", Decimal(f.sampleRate))
      + [';'] + Param("channels", Decimal(f.channels))
  }

  lemma NoSepInDigits(d: string, sep: char)
    requires AllDigits(d) && !IsDigit(sep)
    ensures sep !in d
  {
    assert forall i :: 0 <= i < |d| ==> d[i] != sep;
  }

  /** `key=<digits>` is read as the key with the number as its value. */
  lemma ParamOfDecimal(key: string, n: nat)
    requires '=' !in key && Trim(key) == key && Lower(key) == key
    ensures ParamKey(Param(key, Decimal(n))) == key
    ensures ParamValue(Param(key, Decimal(n))) == Decimal(n)
  {
    var d := Decimal(n);
    NoSepInDigits(d, '=');
    SplitAt(key, '=', d);
    SplitNoSep(d, '=');
    DecimalIsPlain(n);
  }

  /** A word of lower-case letters is a parameter name as `ParamKey` leaves it. */
  lemma PlainWord(w: string)
    requires w != [] && forall i :: 0 <= i < |w| ==> 'a' <= w[i] <= 'z'
    ensures '=' !in w && Trim(w) == w && Lower(w) == w
  {
    TrimNoSpace(w);
    LowerNoUpper(w);
  }

  lemma RateKeyPlain()
    ensures '=' !in "rate" && Trim("rate") == "rate" && Lower("rate") == "rate"
    ensures '=' !in "channels" && Trim("channels") == "channels" && Lower("channels") == "channels"
  {
    PlainWord("rate");
    PlainWord("channels");
  }

  /** A word followed by digits contains no character that is absent from the word and not a digit. */
  lemma NoSepInWordDigits(w: string, d: string, sep: char)
    requires sep !in w && AllDigits(d) && !IsDigit(sep)
    ensures sep !in w + d
  {
    NoSepInDigits(d, sep);
    assert forall i :: |w| <= i < |w + d| ==> (w + d)[i] == d[i - |w|];
  }

  /** Three pieces joined by a separator they do not contain split back into those pieces. */
  lemma SplitThree(a: string, b: string, c: string, sep: char)
    requires sep !in a && sep !in b && sep !in c
    ensures Split(a + [sep] + b + [sep] + c, sep) == [a, b, c]
  {
    SplitNoSep(c, sep);
    SplitAt(b, sep, c);
    SplitAt(a, sep, b + [sep] + c);
    assert a + [sep] + (b + [sep] + c) == a + [sep] + b + [sep] + c;
  }

  /** `rate=<n>` sets the sample rate to n. */
  lemma RateParam(p: Partial, n: nat)
    ensures ApplyParam(p, Param("rate", Decimal(n))) == p.(sampleRate := Some(Num(n)))
  {
    RateKeyPlain();
    ParamOfDecimal("rate", n);
    ParseIntOfDecimal(n);
  }

  /** `channels=<n>` sets the channel count to n. */
  lemma ChannelsParam(p: Partial, n: nat)
    ensures ApplyParam(p, Param("channels", Decimal(n))) == p.(channels := Some(Num(n)))
  {
    RateKeyPlain();
    ParamOfDecimal("channels", n);
    ParseIntOfDecimal(n);
    assert "channels" != "rate" by { assert |"channels"| != |"rate"|; }
  }

  /** Two parameters are applied in order. */
  lemma ApplyTwo(p: Partial, x: string, y: string)
    ensures ApplyParams(p, [x, y]) == ApplyParam(ApplyParam(p, x), y)
  {
    assert [x, y][1..] == [y];
    assert [y][1..] == [];
    assert ApplyParams(p, [x, y]) == ApplyParams(ApplyParam(p, x), [y]);
    assert ApplyParams(ApplyParam(p, x), [y]) == ApplyParams(ApplyParam(ApplyParam(p, x), y), []);
  }

  /** Lower-casing `audio/L` followed by text without capitals only touches the `L`. */
  lemma LowerSubtype(rest: string)
    requires forall i :: 0 <= i < |rest| ==> !('A' <= rest[i] <= 'Z')
    ensures Lower("audio/L" + rest) == "audio/l" + rest
  {
    LowerAppend("audio/L", rest);
    LowerNoUpper(rest);
    assert Lower("audio/L") == "audio/l";
  }

  /** After `audio/l`, the digits up to the first `;` are the sample size. */
  lemma BitsOfLowered(bits: nat, tail: string)
    requires tail == [] || tail[0] == ';'
    ensures StartsWith("audio/l" + (Decimal(bits) + tail), "audio/l")
    ensures BitsFromSubtype("audio/l" + (Decimal(bits) + tail)) == Some(Num(bits))
  {
    var b := Decimal(bits);
    var lower := "audio/l" + (b + tail);
    JoinThenSplit("audio/l", b + tail);
    NoSepInDigits(b, ';');
    if tail == [] {
      AppendEmpty(b, tail);
      SplitNoSep(b, ';');
    } else {
      AppendFirstThenRest(b, tail);
      SplitAt(b, ';', tail[1..]);
    }
    ParseIntOfDecimal(bits);
  }

  /** The subtype `audio/L<bits>` followed by parameters yields that sample size. */
  lemma SubtypeBits(bits: nat, tail: string)
    requires tail == [] || tail[0] == ';'
    requires forall i :: 0 <= i < |tail| ==> !('A' <= tail[i] <= 'Z')
    ensures StartsWith(Lower("audio/L" + Decimal(bits) + tail), "audio/l")
    ensures BitsFromSubtype(Lower("audio/L" + Decimal(bits) + tail)) == Some(Num(bits))
  {
    var b := Decimal(bits);
    var rest := b + tail;
    assert forall i :: 0 <= i < |rest| ==> !('A' <= rest[i] <= 'Z') by {
      assert forall i :: 0 <= i < |b| ==> rest[i] == b[i];
      assert forall i :: |b| <= i < |rest| ==> rest[i] == tail[i - |b|];
    }
    LowerSubtype(rest);
    assert "audio/L" + b + tail == "audio/L" + rest;
    BitsOfLowered(bits, tail);
  }

  /** A parameter whose key has no `;` and whose value is digits holds no `;`. */
  lemma NoSemicolonInParam(key: string, d: string)
    requires ';' !in key && AllDigits(d)
    ensures ';' !in Param(key, d)
  {
    NoSepInWordDigits(key + ['='], d, ';');
  }

  /** An `audio/l…` type whose subtype and parameters give all three fields parses to them. */
  lemma ParseL(m: string, f: PcmFormat)
    requires Positive(f) && m != ""
    requires StartsWith(Lower(m), "audio/l")
    requires BitsFromSubtype(Lower(m)) == Some(Num(f.bitsPerSample))
    requires ApplyParams(Partial(None, None, Some(Num(f.bitsPerSample))), Split(m, ';')[1..])
          == Partial(Some(Num(f.sampleRate)), Some(Num(f.channels)), Some(Num(f.bitsPerSample)))
    ensures ParsePcmMimeType(m) == Some(f)
  {
    var lower := Lower(m);
    var preset := if StartsWith(lower, "audio/l") then BitsFromSubtype(lower) else None;
    assert preset == Some(Num(f.bitsPerSample));
    var parsed := ApplyParams(Partial(None, None, preset), Split(m, ';')[1..]);
    assert ParsePcmMimeType(m) == Finish(parsed);
    assert parsed == Partial(Some(Num(f.sampleRate)), Some(Num(f.channels)), Some(Num(f.bitsPerSample)));
    FinishSetFields(f);
  }

  /** Fields that were all set to positive numbers are taken as they are. */
  lemma FinishSetFields(f: PcmFormat)
    requires Positive(f)
    ensures Finish(Partial(Some(Num(f.sampleRate)), Some(Num(f.channels)), Some(Num(f.bitsPerSample)))) == Some(f)
  {
  }

  /** An `audio/l…` type that sets no channel count parses with the default single channel. */
  lemma ParseLOneChannel(m: string, rate: nat, bits: nat)
    requires rate > 0 && bits > 0 && m != ""
    requires StartsWith(Lower(m), "audio/l")
    requires BitsFromSubtype(Lower(m)) == Some(Num(bits))
    requires ApplyParams(Partial(None, None, Some(Num(bits))), Split(m, ';')[1..]) == Partial(Some(Num(rate)), None, Some(Num(bits)))
    ensures ParsePcmMimeType(m) == Some(PcmFormat(rate, DefaultChannels, bits))
  {
    var lower := Lower(m);
    var preset := if StartsWith(lower, "audio/l") then BitsFromSubtype(lower) else None;
    assert preset == Some(Num(bits));
    var parsed := ApplyParams(Partial(None, None, preset), Split(m, ';')[1..]);
    assert ParsePcmMimeType(m) == Finish(parsed);
    assert parsed == Partial(Some(Num(rate)), None, Some(Num(bits)));
    FinishDefaultChannels(rate, bits);
  }

  /** A rate and a sample size set to positive numbers, with no channel count, take one channel. */
  lemma FinishDefaultChannels(rate: nat, bits: nat)
    requires rate > 0 && bits > 0
    ensures Finish(Partial(Some(Num(rate)), None, Some(Num(bits)))) == Some(PcmFormat(rate, DefaultChannels, bits))
  {
  }

  /** The descriptor of a positive format parses back to that format. */
  lemma DescriptorRoundTrip(f: PcmFormat)
    requires Positive(f)
    ensures ParsePcmMimeType(Descriptor(f)) == Some(f)
  {
    var b, r, c := Decimal(f.bitsPerSample), Decimal(f.sampleRate), Decimal(f.channels);
    var m := Descriptor(f);
    var head, rateParam, chanParam := "audio/L" + b, Param("rate", r), Param("channels", c);
    NoSepInWordDigits("audio/L", b, ';');
    NoSemicolonInParam("rate", r);
    NoSemicolonInParam("channels", c);
    SplitThree(head, rateParam, chanParam, ';');
    assert Split(m, ';')[1..] == [rateParam, chanParam];
    var tail := [';'] + rateParam + [';'] + chanParam;
    RegroupAfterHead(head, [';'], rateParam, [';'], chanParam);
    assert m == head + tail;
    NoUpperInParams(r, c);
    SubtypeBits(f.bitsPerSample, tail);
    var p0 := Partial(None, None, Some(Num(f.bitsPerSample)));
    ApplyTwo(p0, rateParam, chanParam);
    RateParam(p0, f.sampleRate);
    ChannelsParam(p0.(sampleRate := Some(Num(f.sampleRate))), f.channels);
    ParseL(m, f);
  }

  /**
   * `audio/L<bits>;rate=<rate>`, with no `channels` parameter, parses to that
   * rate and sample size with the default single channel.
   */
  lemma RateOnlyParses(bits: nat, rate: nat)
    requires bits > 0 && rate > 0
    ensures ParsePcmMimeType("audio/L" + Decimal(bits) + [';'] + Param("rate", Decimal(rate)))
         == Some(PcmFormat(rate, DefaultChannels, bits))
  {
    var b, r := Decimal(bits), Decimal(rate);
    var head, rateParam := "audio/L" + b, Param("rate", r);
    var m := head + [';'] + rateParam;
    NoSepInWordDigits("audio/L", b, ';');
    NoSemicolonInParam("rate", r);
    SplitNoSep(rateParam, ';');
    SplitAt(head, ';', rateParam);
    assert Split(m, ';')[1..] == [rateParam];
    var tail := [';'] + rateParam;
    NoUpperInRateParam(r);
    AppendAssociates(head, [';'], rateParam);
    SubtypeBits(bits, tail);
    var p0 := Partial(None, None, Some(Num(bits)));
    assert [rateParam][1..] == [];
    RateParam(p0, rate);
    assert ApplyParams(p0, [rateParam]) == Partial(Some(Num(rate)), None, Some(Num(bits)));
    ParseLOneChannel(m, rate, bits);
  }

  lemma NoUpperInRateParam(r: string)
    requires AllDigits(r)
    ensures var t := [';'] + Param("rate", r); forall i :: 0 <= i < |t| ==> !('A' <= t[i] <= 'Z')
  {
    var t := [';'] + Param("rate", r);
    assert t == ";rate=" + r;
    forall i | 0 <= i < |t| ensures !('A' <= t[i] <= 'Z') {
      if i >= 6 { assert t[i] == r[i - 6]; }
    }
  }

  lemma TelephonyDigits()
    ensures Decimal(8) == "8" && Decimal(8000) == "8000"
  {
    assert Decimal(8) == "8";
    assert Decimal(80) == "80";
    assert Decimal(800) == "800";
  }

  /** `audio/L8;rate=8000` reads as 8000 Hz, one channel, 8 bits. */
  lemma EightBitTelephony()
    ensures ParsePcmMimeType("audio/L8;rate=8000") == Some(PcmFormat(8000, 1, 8))
  {
    TelephonyDigits();
    assert "audio/L" + "8" + [';'] + Param("rate", "8000") == "audio/L8;rate=8000";
    RateOnlyParses(8, 8000);
  }

  lemma NoUpperInParams(r: string, c: string)
    requires AllDigits(r) && AllDigits(c)
    ensures var t := [';'] + Param("rate", r) + [';'] + Param("channels", c);
      forall i :: 0 <= i < |t| ==> !('A' <= t[i] <= 'Z')
  {
    var t := [';'] + Param("rate", r) + [';'] + Param("channels", c);
    assert t == ";rate=" + r + ";channels=" + c;
    forall i | 0 <= i < |t| ensures !('A' <= t[i] <= 'Z') {
      if i < 6 {
      } else if i < 6 + |r| {
        assert t[i] == r[i - 6];
      } else if i < 6 + |r| + 10 {
      } else {
        assert t[i] == c[i - 16 - |r|];
      }
    }
  }

  /** The `audio/pcm` form of a descriptor, with a rate and a channel count. */
  function PcmForm(rate: nat, channels: nat): string {
    "audio/pcm" + [';'] + Param("rate", Decimal(rate)) + [';'] + Param("channels", Decimal(channels))
  }

  lemma PcmFormSplit(rate: nat, channels: nat)
    ensures Split(PcmForm(rate, channels), ';')[1..] == [Param("rate", Decimal(rate)), Param("channels", Decimal(channels))]
  {
    var rateParam, chanParam := Param("rate", Decimal(rate)), Param("channels", Decimal(channels));
    NoSemicolonInParam("rate", Decimal(rate));
    NoSemicolonInParam("channels", Decimal(channels));
    SplitThree("audio/pcm", rateParam, chanParam, ';');
  }

  lemma PcmFormApply(rate: nat, channels: nat)
    ensures ApplyParams(Partial(None, None, None), [Param("rate", Decimal(rate)), Param("channels", Decimal(channels))])
         == Partial(Some(Num(rate)), Some(Num(channels)), None)
  {
    var p0 := Partial(None, None, None);
    ApplyTwo(p0, Param("rate", Decimal(rate)), Param("channels", Decimal(channels)));
    RateParam(p0, rate);
    ChannelsParam(p0.(sampleRate := Some(Num(rate))), channels);
  }

  lemma PcmFormSubtype(rate: nat, channels: nat)
    ensures !StartsWith(Lower(PcmForm(rate, channels)), "audio/l") && StartsWith(Lower(PcmForm(rate, channels)), "audio/pcm")
  {
    var tail := [';'] + Param("rate", Decimal(rate)) + [';'] + Param("channels", Decimal(channels));
    assert PcmForm(rate, channels) == "audio/pcm" + tail;
    PcmSubtype(tail);
  }

  /**
   * The `audio/pcm` form takes 16 bits: `audio/pcm;rate=<r>;channels=<c>` parses
   * to rate r and c channels; `channels=0` is falsy, so the channel count then
   * falls back to one.
   */
  lemma PcmFormParses(rate: nat, channels: nat)
    requires rate > 0
    ensures ParsePcmMimeType(PcmForm(rate, channels)) == Some(PcmFormat(rate, if channels == 0 then 1 else channels, 16))
  {
    PcmFormSplit(rate, channels);
    PcmFormApply(rate, channels);
    PcmFormSubtype(rate, channels);
    ParsePcm(PcmForm(rate, channels), rate, channels);
  }

  /** Text that starts with `audio/pcm` is of the `pcm` form and not of the `L` form. */
  lemma PcmSubtype(tail: string)
    ensures !StartsWith(Lower("audio/pcm" + tail), "audio/l") && StartsWith(Lower("audio/pcm" + tail), "audio/pcm")
  {
    var m := "audio/pcm" + tail;
    var lower := Lower(m);
    assert m[..9] == "audio/pcm";
    assert lower[..9] == Lower(m[..9]);
    assert !StartsWith(lower, "audio/l") by {
      assert lower[6] == 'p';
    }
  }

  /** An `audio/pcm…` type whose parameters give a rate and a channel count parses to them, with 16 bits. */
  lemma ParsePcm(m: string, rate: nat, channels: nat)
    requires rate > 0 && m != ""
    requires !StartsWith(Lower(m), "audio/l") && StartsWith(Lower(m), "audio/pcm")
    requires ApplyParams(Partial(None, None, None), Split(m, ';')[1..]) == Partial(Some(Num(rate)), Some(Num(channels)), None)
    ensures ParsePcmMimeType(m) == Some(PcmFormat(rate, if channels == 0 then 1 else channels, 16))
  {
  }
}
