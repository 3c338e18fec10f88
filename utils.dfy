/**
 * The data partitioners of utils.py: the events split by class, the
 * moving averages split by window, the support/resistance levels split
 * by horizon, the asset catalog built from its CSV rows, and the
 * Markdown escaping applied to model answers.
 */
module Utils {
  import opened Wrappers
  import opened PyText
  import opened PyValue

  // ---------------------------------------------------------------- events

  /** A detected pattern or indicator signal: a dict that should carry the key "event class". */
  type Event = Dict<Value>

  const EventClassKey: string := "event class"

  /** The four class tags that `split_events` knows, in the order of its buckets. */
  const ClassicTag: string := "classic"
  const ShortTermTag: string := "shortterm"
  const IndicatorTag: string := "indicator"
  const OscillatorTag: string := "oscillator"

  predicate HasClass(e: Event) {
    HasKey(e, EventClassKey)
  }

  predicate AllHaveClass(events: seq<Event>) {
    forall k :: 0 <= k < |events| ==> HasClass(events[k])
  }

  /** `event["event class"] == tag`; a tag that is not a string never matches. */
  predicate IsOfClass(e: Event, tag: string)
    requires HasClass(e)
  {
    Get(e, EventClassKey) == PyStr(tag)
  }

  predicate IsKnownClass(e: Event)
    requires HasClass(e)
  {
    IsOfClass(e, ClassicTag) || IsOfClass(e, ShortTermTag) || IsOfClass(e, IndicatorTag) || IsOfClass(e, OscillatorTag)
  }

  /** The events of class `tag`, in input order (the list one bucket of `split_events` collects). */
  function OfClass(events: seq<Event>, tag: string): seq<Event>
    requires AllHaveClass(events)
  {
    if events == [] then []
    else
      var last := events[|events| - 1];
      OfClass(events[..|events| - 1], tag) + (if IsOfClass(last, tag) then [last] else [])
  }

  /** The four lists `split_events` returns. */
  datatype EventBuckets = EventBuckets(
    classics: seq<Event>,
    candlesticks: seq<Event>,
    indicators: seq<Event>,
    oscillators: seq<Event>)

  /** What `split_events` returns or raises, as a value. */
  function EventBucketsOf(events: seq<Event>): Result<EventBuckets> {
    if AllHaveClass(events) then
      Ok(EventBuckets(
        OfClass(events, ClassicTag),
        OfClass(events, ShortTermTag),
        OfClass(events, IndicatorTag),
        OfClass(events, OscillatorTag)))
    else
      Err(KeyError(EventClassKey))
  }

  /**
   * `split_events`: one pass over the events appending each to the bucket
   * of its class; an event without "event class" raises KeyError.
   */
  method SplitEvents(events: seq<Event>) returns (r: Result<EventBuckets>)
    ensures r == EventBucketsOf(events)
  {
    var classics, candlesticks, indicators, oscillators := [], [], [], [];
    var i := 0;
    while i < |events|
      invariant 0 <= i <= |events|
      invariant AllHaveClass(events[..i])
      invariant classics == OfClass(events[..i], ClassicTag)
      invariant candlesticks == OfClass(events[..i], ShortTermTag)
      invariant indicators == OfClass(events[..i], IndicatorTag)
      invariant oscillators == OfClass(events[..i], OscillatorTag)
    {
      var event := events[i];
      if !HasKey(event, EventClassKey) {
        assert !AllHaveClass(events);
        return Err(KeyError(EventClassKey));
      }
      assert events[..i + 1][..i] == events[..i];
      var tag := Get(event, EventClassKey);
      if tag == PyStr(ClassicTag) {
        classics := classics + [event];
      } else if tag == PyStr(ShortTermTag) {
        candlesticks := candlesticks + [event];
      } else if tag == PyStr(IndicatorTag) {
        indicators := indicators + [event];
      } else if tag == PyStr(OscillatorTag) {
        oscillators := oscillators + [event];
      }
      i := i + 1;
    }
    assert events[..i] == events;
    r := Ok(EventBuckets(classics, candlesticks, indicators, oscillators));
  }

  /** `split_events` raises KeyError exactly when some event has no "event class"; it never skips one. */
  lemma SplitEventsKeyError(events: seq<Event>)
    ensures EventBucketsOf(events).Err? <==> exists k :: 0 <= k < |events| && !HasKey(events[k], EventClassKey)
    ensures EventBucketsOf(events).Err? ==> EventBucketsOf(events).error == KeyError("event class")
  {
  }

  /** A bucket is the concatenation of the buckets of the two halves: each bucket keeps input order. */
  lemma {:induction false} OfClassAppend(a: seq<Event>, b: seq<Event>, tag: string)
    requires AllHaveClass(a) && AllHaveClass(b)
    ensures AllHaveClass(a + b)
    ensures OfClass(a + b, tag) == OfClass(a, tag) + OfClass(b, tag)
    decreases |b|
  {
    assert AllHaveClass(a + b) by {
      forall k | 0 <= k < |a + b| ensures HasClass((a + b)[k]) {
        if k >= |a| { assert (a + b)[k] == b[k - |a|]; }
      }
    }
    if b == [] {
      assert a + b == a;
    } else {
      var b' := b[..|b| - 1];
      assert (a + b)[..|a + b| - 1] == a + b';
      OfClassAppend(a, b', tag);
    }
  }

  /** An event lands in the bucket of `tag` exactly when it is an input event of that class. */
  lemma {:induction false} OfClassMembers(events: seq<Event>, tag: string, e: Event)
    requires AllHaveClass(events)
    ensures e in OfClass(events, tag) <==> e in events && HasClass(e) && IsOfClass(e, tag)
  {
    if events != [] {
      var init := events[..|events| - 1];
      OfClassMembers(init, tag, e);
      assert events == init + [events[|events| - 1]];
    }
  }

  /** No event is in two buckets, and an event of an unknown class is in none. */
  lemma BucketsDisjoint(events: seq<Event>, e: Event)
    requires AllHaveClass(events)
    ensures var n := (if e in OfClass(events, ClassicTag) then 1 else 0)
                   + (if e in OfClass(events, ShortTermTag) then 1 else 0)
                   + (if e in OfClass(events, IndicatorTag) then 1 else 0)
                   + (if e in OfClass(events, OscillatorTag) then 1 else 0);
            n <= 1 && (n == 1 <==> e in events && IsKnownClass(e))
  {
    OfClassMembers(events, ClassicTag, e);
    OfClassMembers(events, ShortTermTag, e);
    OfClassMembers(events, IndicatorTag, e);
    OfClassMembers(events, OscillatorTag, e);
  }

  /** Events whose class is not one of the four known tags. */
  function UnknownCount(events: seq<Event>): nat
    requires AllHaveClass(events)
  {
    if events == [] then 0
    else UnknownCount(events[..|events| - 1]) + (if IsKnownClass(events[|events| - 1]) then 0 else 1)
  }

  /** The buckets together hold every input event of a known class once: the input length minus the dropped ones. */
  lemma {:induction false} BucketsTotal(events: seq<Event>)
    requires AllHaveClass(events)
    ensures |OfClass(events, ClassicTag)| + |OfClass(events, ShortTermTag)|
          + |OfClass(events, IndicatorTag)| + |OfClass(events, OscillatorTag)|
            == |events| - UnknownCount(events)
    ensures UnknownCount(events) <= |events|
  {
    if events != [] {
      BucketsTotal(events[..|events| - 1]);
    }
  }

  // ------------------------------------------------------- moving averages

  const ShortSmaKeys: seq<string> := ["sma4", "sma9", "sma21"]
  const IntermediateSmaKeys: seq<string> := ["sma50", "sma200"]

  /** `if k in src and src[k]: dst[k] = src[k]`. */
  function CopyIfTruthy(dst: Dict<Value>, src: Dict<Value>, k: string): Dict<Value> {
    if HasKey(src, k) && Truthy(Get(src, k)) then Put(dst, k, Get(src, k)) else dst
  }

  /** The entries `[(k, src[k]) for k in keys if k in src and src[k]]`. */
  function TruthyEntries(src: Dict<Value>, keys: seq<string>): Dict<Value> {
    if keys == [] then []
    else
      (if HasKey(src, keys[0]) && Truthy(Get(src, keys[0])) then [(keys[0], Get(src, keys[0]))] else [])
      + TruthyEntries(src, keys[1..])
  }

  /** Copying a key that is not yet in `dst` appends the entry, if any. */
  lemma CopyIfTruthyAppends(dst: Dict<Value>, src: Dict<Value>, k: string)
    requires !HasKey(dst, k)
    ensures CopyIfTruthy(dst, src, k) == dst + TruthyEntries(src, [k])
  {
  }

  /** A key is among the entries exactly when it is listed and truthy in `src`, and its value is copied. */
  lemma {:induction false} TruthyEntriesMembers(src: Dict<Value>, keys: seq<string>, k: string)
    ensures HasKey(TruthyEntries(src, keys), k) <==> k in keys && HasKey(src, k) && Truthy(Get(src, k))
    ensures HasKey(TruthyEntries(src, keys), k) ==> Get(TruthyEntries(src, keys), k) == Get(src, k)
  {
    if keys != [] {
      TruthyEntriesMembers(src, keys[1..], k);
      var head := if HasKey(src, keys[0]) && Truthy(Get(src, keys[0])) then [(keys[0], Get(src, keys[0]))] else [];
      var rest := TruthyEntries(src, keys[1..]);
      assert TruthyEntries(src, keys) == head + rest;
      KeysAppend(head, rest);
      assert keys == [keys[0]] + keys[1..];
      if head != [] {
        assert (head + rest)[0] == head[0];
        assert (head + rest)[1..] == rest;
      } else {
        assert head + rest == rest;
      }
    }
  }

  /** The entries of a longer key list are those of the shorter one followed by the new key's. */
  lemma {:induction false} TruthyEntriesSnoc(src: Dict<Value>, keys: seq<string>, k: string)
    ensures TruthyEntries(src, keys + [k]) == TruthyEntries(src, keys) + TruthyEntries(src, [k])
  {
    if keys == [] {
      assert keys + [k] == [k];
    } else {
      assert (keys + [k])[1..] == keys[1..] + [k];
      TruthyEntriesSnoc(src, keys[1..], k);
    }
  }

  /** One more `if k in src and src[k]: dst[k] = src[k]` extends the entries by that key's. */
  lemma CopyStep(dst: Dict<Value>, src: Dict<Value>, keys: seq<string>, k: string)
    requires dst == TruthyEntries(src, keys) && k !in keys
    ensures CopyIfTruthy(dst, src, k) == TruthyEntries(src, keys + [k])
  {
    TruthyEntriesMembers(src, keys, k);
    CopyIfTruthyAppends(dst, src, k);
    TruthyEntriesSnoc(src, keys, k);
  }

  datatype SmaBuckets = SmaBuckets(short: Dict<Value>, intermediate: Dict<Value>)

  /** `split_smas`. */
  function SplitSmas(sma: Dict<Value>): (r: SmaBuckets)
    ensures r.short == TruthyEntries(sma, ShortSmaKeys)
    ensures r.intermediate == TruthyEntries(sma, IntermediateSmaKeys)
    ensures forall k :: HasKey(r.short, k) <==> k in ShortSmaKeys && HasKey(sma, k) && Truthy(Get(sma, k))
    ensures forall k :: HasKey(r.intermediate, k) <==> k in IntermediateSmaKeys && HasKey(sma, k) && Truthy(Get(sma, k))
    ensures forall k :: HasKey(r.short, k) ==> Get(r.short, k) == Get(sma, k)
    ensures forall k :: HasKey(r.intermediate, k) ==> Get(r.intermediate, k) == Get(sma, k)
  {
    var s4 := CopyIfTruthy([], sma, "sma4");
    var s9 := CopyIfTruthy(s4, sma, "sma9");
    var short := CopyIfTruthy(s9, sma, "sma21");
    var i50 := CopyIfTruthy([], sma, "sma50");
    var intermediate := CopyIfTruthy(i50, sma, "sma200");
    assert short == TruthyEntries(sma, ShortSmaKeys) by {
      CopyStep([], sma, [], "sma4");
      assert [] + ["sma4"] == ["sma4"];
      CopyStep(s4, sma, ["sma4"], "sma9");
      CopyStep(s9, sma, ["sma4", "sma9"], "sma21");
    }
    assert intermediate == TruthyEntries(sma, IntermediateSmaKeys) by {
      CopyStep([], sma, [], "sma50");
      assert [] + ["sma50"] == ["sma50"];
      CopyStep(i50, sma, ["sma50"], "sma200");
    }
    assert forall k :: (HasKey(short, k) <==> k in ShortSmaKeys && HasKey(sma, k) && Truthy(Get(sma, k)))
                    && (HasKey(short, k) ==> Get(short, k) == Get(sma, k)) by {
      forall k { TruthyEntriesMembers(sma, ShortSmaKeys, k); }
    }
    assert forall k :: (HasKey(intermediate, k) <==> k in IntermediateSmaKeys && HasKey(sma, k) && Truthy(Get(sma, k)))
                    && (HasKey(intermediate, k) ==> Get(intermediate, k) == Get(sma, k)) by {
      forall k { TruthyEntriesMembers(sma, IntermediateSmaKeys, k); }
    }
    SmaBuckets(short, intermediate)
  }

  /** No window lands in both buckets. */
  lemma SmaBucketsDisjoint(sma: Dict<Value>, k: string)
    ensures !(HasKey(SplitSmas(sma).short, k) && HasKey(SplitSmas(sma).intermediate, k))
  {
  }

  // ------------------------------------------------- support and resistance

  /** Both levels of a horizon are present and truthy. */
  predicate PairPresent(src: Dict<Value>, resistance: string, support: string) {
    HasKey(src, resistance) && HasKey(src, support) && Truthy(Get(src, resistance)) && Truthy(Get(src, support))
  }

  /** The dict of one horizon: both of its levels, or nothing. */
  function PairBucket(src: Dict<Value>, resistance: string, support: string): Dict<Value>
    requires resistance != support
  {
    if PairPresent(src, resistance, support) then
      Put(Put([], resistance, Get(src, resistance)), support, Get(src, support))
    else []
  }

  /** `bucket` holds the two levels of its horizon, copied, exactly when both are present and truthy, and nothing else;
      the resistance is inserted first, so `str()` of the dict shows it first. */
  ghost predicate AllOrNothing(bucket: Dict<Value>, src: Dict<Value>, resistance: string, support: string) {
    && (forall k :: HasKey(bucket, k) <==> (k == resistance || k == support) && PairPresent(src, resistance, support))
    && (forall k :: HasKey(bucket, k) ==> HasKey(src, k) && Get(bucket, k) == Get(src, k))
    && (|bucket| == 0 || |bucket| == 2)
    && (PairPresent(src, resistance, support) ==> Keys(bucket) == [resistance, support])
  }

  /** A horizon's dict is all or nothing. */
  lemma PairBucketAllOrNothing(src: Dict<Value>, resistance: string, support: string)
    requires resistance != support
    ensures AllOrNothing(PairBucket(src, resistance, support), src, resistance, support)
  {
    if PairPresent(src, resistance, support) {
      var one := Put([], resistance, Get(src, resistance));
      assert one == [(resistance, Get(src, resistance))];
      assert PairBucket(src, resistance, support) == one + [(support, Get(src, support))];
    }
  }

  datatype SupResBuckets = SupResBuckets(short: Dict<Value>, intermediate: Dict<Value>, long: Dict<Value>)

  /** `split_sup_res`. */
  function SplitSupRes(supRes: Dict<Value>): (r: SupResBuckets)
    ensures AllOrNothing(r.short, supRes, "resistance40", "support40")
    ensures AllOrNothing(r.intermediate, supRes, "resistance250", "support250")
    ensures AllOrNothing(r.long, supRes, "resistance500", "support500")
  {
    PairBucketAllOrNothing(supRes, "resistance40", "support40");
    PairBucketAllOrNothing(supRes, "resistance250", "support250");
    PairBucketAllOrNothing(supRes, "resistance500", "support500");
    SupResBuckets(
      PairBucket(supRes, "resistance40", "support40"),
      PairBucket(supRes, "resistance250", "support250"),
      PairBucket(supRes, "resistance500", "support500"))
  }

  // ---------------------------------------------------------- asset catalog

  /** One row of the asset catalog CSV, as `csv.DictReader` yields it. */
  datatype Row = Row(name: string, entityId: string, instrumentId: string, description: string, logo: string)

  /** The value stored for an asset; the synthetic "General" entry has no ids and no logo. */
  datatype AssetInfo = AssetInfo(
    entityId: Option<string>,
    instrumentId: Option<string>,
    description: string,
    logo: Option<string>)

  const GeneralAsset: string := "General"
  const GeneralDescription: string :=
    "Hello, I'm your helpful financial assistant. You can ask me general questions about finance and economy."
  const GeneralInfo: AssetInfo := AssetInfo(None, None, GeneralDescription, None)

  function InfoOf(row: Row): AssetInfo {
    AssetInfo(Some(row.entityId), Some(row.instrumentId), row.description, Some(row.logo))
  }

  /** The catalog after the rows have been assigned in order, `assets[row.name] = ...`. */
  function RowsToDict(rows: seq<Row>): Dict<AssetInfo> {
    if rows == [] then []
    else
      var last := rows[|rows| - 1];
      Put(RowsToDict(rows[..|rows| - 1]), last.name, InfoOf(last))
  }

  /** The in-memory part of `load_assets`: fill the catalog from the rows, then force the "General" entry. */
  method LoadAssets(rows: seq<Row>) returns (assets: Dict<AssetInfo>)
    ensures assets == Put(RowsToDict(rows), GeneralAsset, GeneralInfo)
  {
    assets := [];
    var i := 0;
    while i < |rows|
      invariant 0 <= i <= |rows|
      invariant assets == RowsToDict(rows[..i])
    {
      assert rows[..i + 1][..i] == rows[..i];
      assets := Put(assets, rows[i].name, InfoOf(rows[i]));
      i := i + 1;
    }
    assert rows[..i] == rows;
    assets := Put(assets, GeneralAsset, GeneralInfo);
  }

  /**
   * Every name in the catalog is a row's name or "General"; the entry of a
   * row name is the one of the LAST row with that name; keys are unique.
   */
  lemma {:induction false} RowsToDictLookup(rows: seq<Row>, n: string)
    ensures UniqueKeys(RowsToDict(rows))
    ensures HasKey(RowsToDict(rows), n) <==> exists i :: 0 <= i < |rows| && rows[i].name == n
    ensures forall j :: 0 <= j < |rows| && rows[j].name == n && (forall k :: j < k < |rows| ==> rows[k].name != n)
               ==> HasKey(RowsToDict(rows), n) && Get(RowsToDict(rows), n) == InfoOf(rows[j])
  {
    RowsToDictUnique(rows);
    RowsToDictHasKey(rows, n);
    forall j | 0 <= j < |rows| && rows[j].name == n && (forall k :: j < k < |rows| ==> rows[k].name != n)
      ensures HasKey(RowsToDict(rows), n) && Get(RowsToDict(rows), n) == InfoOf(rows[j])
    {
      RowsToDictLast(rows, n, j);
    }
  }

  lemma {:induction false} RowsToDictUnique(rows: seq<Row>)
    ensures UniqueKeys(RowsToDict(rows))
  {
    if rows != [] {
      RowsToDictUnique(rows[..|rows| - 1]);
    }
  }

  lemma {:induction false} RowsToDictHasKey(rows: seq<Row>, n: string)
    ensures HasKey(RowsToDict(rows), n) <==> exists i :: 0 <= i < |rows| && rows[i].name == n
  {
    if rows != [] {
      var init := rows[..|rows| - 1];
      RowsToDictHasKey(init, n);
      if exists i :: 0 <= i < |rows| && rows[i].name == n {
        var i :| 0 <= i < |rows| && rows[i].name == n;
        if i < |rows| - 1 { assert init[i].name == n; }
      }
      if exists i :: 0 <= i < |init| && init[i].name == n {
        var i :| 0 <= i < |init| && init[i].name == n;
        assert rows[i].name == n;
      }
    }
  }

  lemma {:induction false} RowsToDictLast(rows: seq<Row>, n: string, j: nat)
    requires j < |rows| && rows[j].name == n
    requires forall k :: j < k < |rows| ==> rows[k].name != n
    ensures HasKey(RowsToDict(rows), n) && Get(RowsToDict(rows), n) == InfoOf(rows[j])
  {
    if j < |rows| - 1 {
      var init := rows[..|rows| - 1];
      assert init[j].name == n;
      assert forall k :: j < k < |init| ==> init[k].name != n;
      RowsToDictLast(init, n, j);
    }
  }

  /** `load_assets` always holds "General" with no ids and the fixed greeting, even over a CSV row named "General". */
  lemma LoadAssetsCatalog(rows: seq<Row>, n: string)
    ensures var assets := Put(RowsToDict(rows), GeneralAsset, GeneralInfo);
      && UniqueKeys(assets)
      && HasKey(assets, GeneralAsset) && Get(assets, GeneralAsset) == GeneralInfo
      && (n != GeneralAsset ==> (HasKey(assets, n) <==> exists i :: 0 <= i < |rows| && rows[i].name == n))
  {
    RowsToDictLookup(rows, n);
  }

  // --------------------------------------------------------------- markdown

  /** `convert_str_to_markdown`: escape every `$` as `\$`, then double every newline. */
  function ConvertStrToMarkdown(text: string): (r: string)
    ensures |r| == |text| + Count(text, '$') + Count(text, '\n')
    ensures Count(text, '$') == 0 && Count(text, '\n') == 0 ==> r == text
  {
    var dollarsEscaped := ReplaceChar(text, '$', "\\$");
    CountAfterEscape(text);
    ReplaceChar(dollarsEscaped, '\n', "\n\n")
  }

  lemma {:induction false} CountAfterEscape(text: string)
    ensures Count(ReplaceChar(text, '$', "\\$"), '\n') == Count(text, '\n')
  {
    if text != [] {
      CountAfterEscape(text[1..]);
      var head := if text[0] == '$' then "\\$" else [text[0]];
      CountAppend(head, ReplaceChar(text[1..], '$', "\\$"), '\n');
    }
  }

  lemma {:induction false} CountAppend(a: string, b: string, c: char)
    ensures Count(a + b, c) == Count(a, c) + Count(b, c)
  {
    if a == [] {
      assert a + b == b;
    } else {
      assert (a + b)[1..] == a[1..] + b;
      CountAppend(a[1..], b, c);
    }
  }

  /** Undo the Markdown escaping: `\$` back to `$`, a doubled newline back to one. */
  function UnescapeMarkdown(s: string): string {
    if |s| >= 2 && s[..2] == "\\$" then "$" + UnescapeMarkdown(s[2..])
    else if |s| >= 2 && s[..2] == "\n\n" then "\n" + UnescapeMarkdown(s[2..])
    else if s == [] then ""
    else [s[0]] + UnescapeMarkdown(s[1..])
  }

  /** The escaping character by character, in a single pass. */
  function EscapeMarkdown(s: string): string {
    if s == [] then ""
    else (if s[0] == '$' then "\\$" else if s[0] == '\n' then "\n\n" else [s[0]]) + EscapeMarkdown(s[1..])
  }

  /** The two chained `replace` calls amount to the single-pass escaping. */
  lemma {:induction false} ConvertIsEscape(text: string)
    ensures ConvertStrToMarkdown(text) == EscapeMarkdown(text)
  {
    if text != [] {
      ConvertIsEscape(text[1..]);
      var head := if text[0] == '$' then "\\$" else [text[0]];
      ReplaceAppend(head, ReplaceChar(text[1..], '$', "\\$"), '\n', "\n\n");
    }
  }

  lemma {:induction false} ReplaceAppend(a: string, b: string, c: char, repl: string)
    ensures ReplaceChar(a + b, c, repl) == ReplaceChar(a, c, repl) + ReplaceChar(b, c, repl)
  {
    if a == [] {
      assert a + b == b;
    } else {
      assert (a + b)[1..] == a[1..] + b;
      ReplaceAppend(a[1..], b, c, repl);
    }
  }

  /** The Markdown escaping loses nothing: unescaping gives back the original text. */
  lemma {:induction false} MarkdownRoundTrip(text: string)
    ensures UnescapeMarkdown(ConvertStrToMarkdown(text)) == text
  {
    ConvertIsEscape(text);
    EscapeRoundTrip(text);
  }

  lemma {:induction false} EscapeRoundTrip(text: string)
    ensures UnescapeMarkdown(EscapeMarkdown(text)) == text
    ensures EscapeMarkdown(text) != [] ==> EscapeMarkdown(text)[0] != '$'
  {
    if text != [] {
      EscapeRoundTrip(text[1..]);
      var rest := EscapeMarkdown(text[1..]);
      var e := EscapeMarkdown(text);
      if text[0] == '$' {
        assert e == "\\$" + rest;
        assert e[2..] == rest;
      } else if text[0] == '\n' {
        assert e == "\n\n" + rest;
        assert e[2..] == rest;
      } else {
        assert e == [text[0]] + rest;
        assert e[1..] == rest;
        if text[0] == '\\' {
          assert |e| >= 2 ==> e[1] == rest[0];
        }
      }
    }
  }
}
