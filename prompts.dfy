/**
 * prompts.py: the four prompt templates, the choice of template from the
 * assistant type and the asset, and `get_prompt`, which partitions the
 * market data and fills the chosen template.
 */
module Prompts {
  import opened Wrappers
  import opened PyText
  import opened PyValue
  import opened Template
  import opened Utils

  // ---------------------------------------------------------------- sections
  // The templates are cut into sections at line ends; a section shared by
  // several templates is written once.

  const DataIntroLead: string := "\nImagine you're a "
  const DataIntroMission: string := " Your mission is to analyze the last recent data available about the stock "
  const DataIntroPersona: Template := [Lit(DataIntroLead + "helpful financial "), Hole("assistant_type"), Lit("." + DataIntroMission)]
  const DataIntroRest: Template := [Hole("asset"), Lit(" (listed on TC DATA) and answer directly the question of the user. You may answer only questions related to finance and economy. The current date is: "), Hole("date"), Lit(".\n\n")]
  const DataIntro: Template := DataIntroPersona + DataIntroRest


  const ChatbotIntro: Template := [Lit("\nImagine you're a helpful financial analitical/advisory chatbot. Your mission is to analyze the last recent data available about the stock "), Hole("asset"), Lit(" (listed on TC DATA) and answer directly the question of the user. You may answer only questions related to finance and economy. The current date is: "), Hole("date"), Lit(".\n\n")]

  const GeneralIntro: Template := [Lit("\nImagine you're a helpful financial analitical/advisory chatbot. Your mission is to answer directly the question of the user. You may answer only questions related to finance and economy. The current date is: "), Hole("date"), Lit(".\n\n")]

  const TcDataHeader: Template := [Lit("----\nTC DATA: \n")]

  const PriceLine: Template := [Lit("- Stock price and volume of "), Hole("asset"), Lit(": "), Hole("price"), Lit("\n")]

  const SmaShortLine: Template := [Lit("- Simple moving average at short-term of "), Hole("asset"), Lit(": "), Hole("sma_short"), Lit("\n")]

  const SmaIntermediateLine: Template := [Lit("- Simple moving average at intermediate-term of "), Hole("asset"), Lit(": "), Hole("sma_intermediate"), Lit("\n")]

  const SupResShortLine: Template := [Lit("- Support and resistance at short-term of "), Hole("asset"), Lit(": "), Hole("sup_res_short"), Lit("\n")]

  const SupResIntermediateLine: Template := [Lit("- Support and resistance at intermediate-term of "), Hole("asset"), Lit(": "), Hole("sup_res_intermediate"), Lit("\n")]

  const SupResLongLine: Template := [Lit("- Support and resistance at long-term of "), Hole("asset"), Lit(": "), Hole("sup_res_long"), Lit("\n")]

  const ClassicsLine: Template := [Lit("- Classic patterns of "), Hole("asset"), Lit(": "), Hole("classics"), Lit("\n")]

  const CandlesticksLine: Template := [Lit("- Candlestick patterns of "), Hole("asset"), Lit(": "), Hole("candlesticks"), Lit("\n")]

  const IndicatorEventsLine: Template := [Lit("- Technical indicators events of "), Hole("asset"), Lit(": "), Hole("indicators"), Lit(" \n")]

  const OscillatorEventsLine: Template := [Lit("- Technical oscillators events of "), Hole("asset"), Lit(": "), Hole("oscillators"), Lit("\n")]

  const IndicatorsLine: Template := [Lit("- Technical indicators of "), Hole("asset"), Lit(": "), Hole("indicators"), Lit(" \n")]

  const OscillatorsLine: Template := [Lit("- Technical oscillators of "), Hole("asset"), Lit(": "), Hole("oscillators"), Lit("\n")]

  const OscillatorValuesLine: Template := [Lit("- Technical oscillators values of "), Hole("asset"), Lit(": "), Hole("oscillators_values"), Lit("\n")]

  const AnticipatedLine: Template := [Lit("- Anticipated technical events (patterns) of "), Hole("asset"), Lit(": "), Hole("anticipated_events"), Lit("\n")]

  const QuestionRule: Template := [Lit("----------------------------\n")]

  const QuestionLine: Template := [Lit("QUESTION: "), Hole("query"), Lit("\n")]

  const ConciseLine: Template := [Lit("Your response have to be concise and answer only the question of user. \n")]

  const LevelLead: string := "Your response should be in Markdown and adapted to the user's knowledge level in finance, "
  const LevelTrail: string := " The different knowledge levels of the user are:\n"
  const LevelLine: Template := [Lit(LevelLead + "which is '"), Hole("experience_user"), Lit("' in this case." + LevelTrail)]

  const AdvisoryNoviceLine: Template := [Lit("- for Novice user:  give a short definition of each indicator and it is interprpretation.. Analysis needs to be understandable by users with no knowledge in finance.\n")]

  const NoviceLine: Template := [Lit("- For Novice user : Use simple words; give a short definition of each indicator and it is interprpretation. Analysis needs to be understandable by users with no knowledge in finance.\n")]

  const ConfirmedExpertLines: Template := [Lit("- Confirmed: The user has some knowledge but is not an expert in finance.\n- Expert: The user is an expert in finance, so you can elaborate on a sophisticated analysis.\n")]

  const AdvisoryDataUseLine: Template := [Lit("Only use the DATA information if it is necessary to answer the user question.\n")]

  const DataUseLine: Template := [Lit("Only use the DATA information if it is necessary to answer the user question. \n")]

  const HighlightLine: Template := [Lit("You should highlight in bold relevant passages/keywords in your response to make it easier to understand.\n")]

  const GeneralHighlightLine: Template := [Lit("You should highlight in bold relevant passages/key words in your response to make it easier to understand.\n")]

  const AdvisoryOutline: Template := [Lit("You technical analysis \"Technical Analysis of asset\" should be organised as follow:\nYou start by providing the actionable \"recommendation\" based on the technical analysis of "), Hole("asset"), Lit(":\n  1- For current Holders\n  2- For potential Buyers\n  3- For potential Sellers\nThen, you list the technical indicators that you will use for the analysis in the following order:\n  1- Current Price and Trend indicators\n  2- Moving average\n  3- Oscillators\n  4- Classic Patterns\n  5- Short-Term Patterns (Candlesticks)\n  6- Technical Indicators events\n  7- Volume Analysis\nLast step, you provide the \"Analysis for technical observation\" and the link between them:\n  1- Current Position\n  2- Overbought or oversold\n  3- Pattern analysis\n  4- Volume analysis\n  5- Moving average analysis\n\n")]

  const AnalyticalOutline: Template := [Lit("You technical analysis \"Technical Analysis of asset\" should be organised as follow:\nYou list the technical indicators that you will use for the analysis in the following order:\n  1- Current Price and Trend indicators\n  2- Moving average\n  3- Oscillators \n  4- Classic Patterns \n  5- Short-Term Patterns (Candlesticks)\n  6- Technical Indicators events \n  7- Volume Analysis\nThen, you provide \"Analysis for technical observation\" and the link between them:\n  1- Current Position\n  2- Overbought or oversold\n  3- Pattern analysis\n  4- Volume analysis\n  5- Moving average analysis\n \n")]

  const DataClosing: Template := [Lit("Finally, your response cannot have any notes about rewording, user experience, reference of data or disclose of source information used on the response.\n")]

  const GeneralClosing: Template := [Lit("Finally, your response cannot have any notes about rewording or user experience.\n")]

  // --------------------------------------------------------------- templates

  datatype TemplateKind = Advisory | Analytical | Chatbot | General

  /** The opening paragraph of each template. */
  function Intro(kind: TemplateKind): Template {
    match kind
    case Advisory => DataIntro
    case Analytical => DataIntro
    case Chatbot => ChatbotIntro
    case General => GeneralIntro
  }

  /** The "TC DATA" header, the price and the two moving averages. */
  const PriceAndAverages: seq<Template> := [TcDataHeader, PriceLine, SmaShortLine, SmaIntermediateLine]

  /** Support and resistance at the three horizons. */
  const SupportAndResistance: seq<Template> := [SupResShortLine, SupResIntermediateLine, SupResLongLine]

  const Patterns: seq<Template> := [ClassicsLine, CandlesticksLine]

  /** The events block of ADVISORY, which words its first two lines differently from the others. */
  const AdvisoryEvents: seq<Template> := [IndicatorEventsLine, OscillatorEventsLine, OscillatorValuesLine, AnticipatedLine]

  const TechnicalEvents: seq<Template> := [IndicatorsLine, OscillatorsLine, OscillatorValuesLine, AnticipatedLine]

  /** The market data; GENERAL has none. */
  function MarketData(kind: TemplateKind): seq<Template> {
    if kind == General then []
    else PriceAndAverages + SupportAndResistance + Patterns + (if kind == Advisory then AdvisoryEvents else TechnicalEvents)
  }

  /** The question and the knowledge level, shared by all four templates. */
  const QuestionBlock: seq<Template> := [QuestionRule, QuestionLine, ConciseLine, LevelLine]

  /** The instructions that close each template. */
  const AdvisoryGuidance: seq<Template> := [AdvisoryNoviceLine, ConfirmedExpertLines, AdvisoryDataUseLine, HighlightLine, AdvisoryOutline, DataClosing]
  const AnalyticalGuidance: seq<Template> := [NoviceLine, ConfirmedExpertLines, DataUseLine, HighlightLine, AnalyticalOutline, DataClosing]
  const ChatbotGuidance: seq<Template> := [NoviceLine, ConfirmedExpertLines, DataUseLine, HighlightLine, DataClosing]
  const GeneralGuidance: seq<Template> := [NoviceLine, ConfirmedExpertLines, GeneralHighlightLine, GeneralClosing]

  function Guidance(kind: TemplateKind): seq<Template> {
    match kind
    case Advisory => AdvisoryGuidance
    case Analytical => AnalyticalGuidance
    case Chatbot => ChatbotGuidance
    case General => GeneralGuidance
  }

  /** The sections of `PROMPTS["ADVISORY"]`, `["ANALYTICAL"]`, `["CHATBOT"]` and `["GENERAL"]`. */
  function Sections(kind: TemplateKind): seq<Template> {
    [Intro(kind)] + MarketData(kind) + QuestionBlock + Guidance(kind)
  }

  /**
   * `PROMPTS[...]` for each kind, section after section. Every hole is a
   * keyword of the template's `.format` call, so filling it never raises;
   * the GENERAL template asks for the date, the query and the knowledge
   * level only, so the assistant type passed to it is never shown.
   */
  function PromptTemplate(kind: TemplateKind): (r: Template)
    ensures Holes(r) <= SuppliedFields(kind)
    ensures kind == General ==> Holes(r) <= {"date", "query", "experience_user"}
  {
    TemplateFieldsSupplied(kind);
    Flatten(Sections(kind))
  }

  /** The keyword arguments of the three `.format` calls that fill a template with market data. */
  const DataFields: set<string> := {
    "asset", "assistant_type", "date", "experience_user", "query", "price",
    "sma_short", "sma_intermediate", "sup_res_short", "sup_res_intermediate", "sup_res_long",
    "oscillators_values", "classics", "candlesticks", "indicators", "oscillators", "anticipated_events"}

  /** The keyword arguments of the `.format` call that fills the GENERAL template. */
  const GeneralFields: set<string> := {"assistant_type", "date", "experience_user", "query"}

  function SuppliedFields(kind: TemplateKind): set<string> {
    if kind == General then GeneralFields else DataFields
  }

  lemma PriceAndAveragesHoles()
    ensures SectionHoles(PriceAndAverages) <= {"asset", "price", "sma_short", "sma_intermediate"}
  {
    SectionHolesBound(PriceAndAverages, {"asset", "price", "sma_short", "sma_intermediate"});
  }

  lemma SupportAndResistanceHoles()
    ensures SectionHoles(SupportAndResistance) <= {"asset", "sup_res_short", "sup_res_intermediate", "sup_res_long"}
  {
    SectionHolesBound(SupportAndResistance, {"asset", "sup_res_short", "sup_res_intermediate", "sup_res_long"});
  }

  lemma PatternsHoles()
    ensures SectionHoles(Patterns) <= {"asset", "classics", "candlesticks"}
  {
    SectionHolesBound(Patterns, {"asset", "classics", "candlesticks"});
  }

  lemma EventsHoles()
    ensures SectionHoles(AdvisoryEvents) <= {"asset", "indicators", "oscillators", "oscillators_values", "anticipated_events"}
    ensures SectionHoles(TechnicalEvents) <= {"asset", "indicators", "oscillators", "oscillators_values", "anticipated_events"}
  {
    SectionHolesBound(AdvisoryEvents, {"asset", "indicators", "oscillators", "oscillators_values", "anticipated_events"});
    SectionHolesBound(TechnicalEvents, {"asset", "indicators", "oscillators", "oscillators_values", "anticipated_events"});
  }

  /** The market data asks only for the fields of the three data `.format` calls. */
  lemma MarketDataHoles(kind: TemplateKind)
    ensures SectionHoles(MarketData(kind)) <= DataFields
  {
    if kind != General {
      PriceAndAveragesHoles();
      SupportAndResistanceHoles();
      PatternsHoles();
      EventsHoles();
      SectionHolesWithin(PriceAndAverages, SupportAndResistance, Patterns,
        if kind == Advisory then AdvisoryEvents else TechnicalEvents, DataFields);
    }
  }

  /** The closing instructions ask for the asset name at most. */
  lemma GuidanceHoles(kind: TemplateKind)
    ensures SectionHoles(Guidance(kind)) <= {"asset"}
    ensures kind != Advisory ==> SectionHoles(Guidance(kind)) == {}
  {
    match kind
    case Advisory => SectionHolesBound(AdvisoryGuidance, {"asset"});
    case Analytical => SectionHolesBound(AnalyticalGuidance, {});
    case Chatbot => SectionHolesBound(ChatbotGuidance, {});
    case General => SectionHolesBound(GeneralGuidance, {});
  }

  lemma IntroHoles(kind: TemplateKind)
    ensures SectionHoles([Intro(kind)]) <= if kind == General then {"date"} else {"assistant_type", "asset", "date"}
  {
    HolesThree(DataIntroLead + "helpful financial ", "assistant_type", "." + DataIntroMission);
    HolesAppend(DataIntroPersona, DataIntroRest);
    SectionHolesBound([Intro(kind)], if kind == General then {"date"} else {"assistant_type", "asset", "date"});
  }

  lemma QuestionBlockHoles()
    ensures SectionHoles(QuestionBlock) <= {"query", "experience_user"}
  {
    HolesThree(LevelLead + "which is '", "experience_user", "' in this case." + LevelTrail);
    SectionHolesBound(QuestionBlock, {"query", "experience_user"});
  }

  /** The sections of each template ask only for the fields of its `.format` call. */
  lemma TemplateFieldsSupplied(kind: TemplateKind)
    ensures Holes(Flatten(Sections(kind))) <= SuppliedFields(kind)
    ensures kind == General ==> Holes(Flatten(Sections(kind))) <= {"date", "query", "experience_user"}
  {
    var f := if kind == General then {"date", "query", "experience_user"} else DataFields;
    IntroHoles(kind);
    MarketDataHoles(kind);
    QuestionBlockHoles();
    GuidanceHoles(kind);
    SectionHolesWithin([Intro(kind)], MarketData(kind), QuestionBlock, Guidance(kind), f);
    HolesFlatten(Sections(kind));
  }

  // ---------------------------------------------------------------- dispatch

  /**
   * The if/elif chain of `get_prompt`: "advisory" anywhere in the
   * lower-cased assistant type wins, then exactly "analytical", then
   * exactly "chatbot", whose template depends on whether the asset is
   * "general"; anything else selects no template.
   */
  function SelectTemplate(assistantType: string, asset: string): (r: Option<TemplateKind>)
    ensures r == Some(Advisory) <==> HasSubstring(Lower(assistantType), "advisory")
    ensures Lower(assistantType) == "analytical" ==> r == Some(Analytical)
    ensures Lower(assistantType) == "chatbot" ==> r == Some(if Lower(asset) == "general" then General else Chatbot)
    ensures r.None? <==> !HasSubstring(Lower(assistantType), "advisory")
                         && Lower(assistantType) != "analytical" && Lower(assistantType) != "chatbot"
  {
    var style := Lower(assistantType);
    NoAdvisoryIn("analytical");
    NoAdvisoryIn("chatbot");
    ContainsIff(style, "advisory");
    if Contains(style, "advisory") then Some(Advisory)
    else if style == "analytical" then Some(Analytical)
    else if style == "chatbot" then Some(if Lower(asset) != "general" then Chatbot else General)
    else None
  }

  lemma NoAdvisoryIn(s: string)
    requires s == "analytical" || s == "chatbot"
    ensures !Contains(s, "advisory")
  {
    if s == "analytical" {
      forall i ensures !Occurs(s, "advisory", i) {
        if 0 <= i && i + 8 <= |s| {
          assert s[i..i + 8][1] == s[i + 1];
          assert i == 0 || i == 1 || i == 2;
          assert s[i + 1] != 'd';
        }
      }
    }
    assert forall i :: !Occurs(s, "advisory", i);
  }

  /** The choice ignores letter case in the assistant type and the asset name. */
  lemma SelectTemplateIgnoresCase(assistantType: string, asset: string)
    ensures SelectTemplate(Lower(assistantType), Lower(asset)) == SelectTemplate(assistantType, asset)
  {
    LowerIdempotent(assistantType);
    LowerIdempotent(asset);
  }

  // ------------------------------------------------------------- get_prompt

  /** The arguments of `get_prompt` that describe the user's turn. */
  datatype PromptRequest = PromptRequest(asset: string, experienceUser: string, assistantType: string, query: string)

  /** The fetched market data of one asset that `get_prompt` receives. */
  datatype Snapshot = Snapshot(
    price: Value,
    sma: Dict<Value>,
    supRes: Dict<Value>,
    oscillatorsValues: Value,
    activeEvents: seq<Event>,
    anticipatedEvents: Value)

  /** A list of events, as the Python list that `str.format` renders. */
  function EventsValue(events: seq<Event>): Value {
    PyList(seq(|events|, i requires 0 <= i < |events| => PyDict(events[i])))
  }

  /** The keyword arguments, rendered by `str()` (the `show` parameter), of the `.format` call for `kind`. */
  function FormatArgs(kind: TemplateKind, req: PromptRequest, snap: Snapshot, today: string, show: Value -> string,
                      events: EventBuckets, smas: SmaBuckets, levels: SupResBuckets): (args: map<string, string>)
    ensures args.Keys == SuppliedFields(kind)
    ensures args["query"] == req.query && args["experience_user"] == Lower(req.experienceUser)
    ensures args["assistant_type"] == Lower(req.assistantType)
  {
    if kind == General then
      map["date" := today, "query" := req.query,
          "experience_user" := Lower(req.experienceUser), "assistant_type" := Lower(req.assistantType)]
    else
      map["asset" := req.asset, "date" := today,
          "price" := show(snap.price),
          "sma_short" := show(PyDict(smas.short)), "sma_intermediate" := show(PyDict(smas.intermediate)),
          "sup_res_short" := show(PyDict(levels.short)),
          "sup_res_intermediate" := show(PyDict(levels.intermediate)),
          "sup_res_long" := show(PyDict(levels.long)),
          "oscillators_values" := show(snap.oscillatorsValues),
          "classics" := show(EventsValue(events.classics)), "candlesticks" := show(EventsValue(events.candlesticks)),
          "indicators" := show(EventsValue(events.indicators)), "oscillators" := show(EventsValue(events.oscillators)),
          "anticipated_events" := show(snap.anticipatedEvents),
          "query" := req.query, "experience_user" := Lower(req.experienceUser),
          "assistant_type" := Lower(req.assistantType)]
  }

  /** The values a data template shows for the asset, the moving averages, the short-term levels and the classic patterns. */
  lemma DataArgsValues(kind: TemplateKind, req: PromptRequest, snap: Snapshot, today: string, show: Value -> string,
                       events: EventBuckets, smas: SmaBuckets, levels: SupResBuckets)
    requires kind != General
    ensures var args := FormatArgs(kind, req, snap, today, show, events, smas, levels);
      && args["asset"] == req.asset
      && args["sma_short"] == show(PyDict(smas.short)) && args["sma_intermediate"] == show(PyDict(smas.intermediate))
      && args["sup_res_short"] == show(PyDict(levels.short))
      && args["classics"] == show(EventsValue(events.classics))
  {}

  /**
   * `get_prompt`, with today's date and Python's `str()` of dicts and lists
   * as parameters. Partitioning the events raises KeyError before any
   * template is chosen; an unknown assistant type gives the empty prompt.
   */
  function GetPrompt(req: PromptRequest, snap: Snapshot, today: string, show: Value -> string): (r: Result<string>)
    ensures r.Ok? <==> AllHaveClass(snap.activeEvents)
    ensures r.Err? ==> r.error == KeyError("event class")
    ensures r.Ok? && SelectTemplate(req.assistantType, req.asset).None? ==> r.value == ""
  {
    match EventBucketsOf(snap.activeEvents)
    case Err(e) => Err(e)
    case Ok(events) =>
      var smas := SplitSmas(snap.sma);
      var levels := SplitSupRes(snap.supRes);
      match SelectTemplate(req.assistantType, req.asset)
      case None => Ok("")
      case Some(kind) =>
        Format(PromptTemplate(kind), FormatArgs(kind, req, snap, today, show, events, smas, levels))
  }

  // ---------------------------------------------------- what the prompt says

  lemma FormatThree(a: string, field: string, b: string, args: map<string, string>)
    requires field in args
    ensures Format([Lit(a), Hole(field), Lit(b)], args) == Ok(a + args[field] + b)
  {
    assert Format([Lit(b)], args) == Ok(b) by {
      assert [Lit(b)][1..] == [];
      assert b + "" == b;
    }
    assert Format([Hole(field), Lit(b)], args) == Ok(args[field] + b) by {
      assert [Hole(field), Lit(b)][1..] == [Lit(b)];
    }
    assert [Lit(a), Hole(field), Lit(b)][1..] == [Hole(field), Lit(b)];
    assert a + (args[field] + b) == a + args[field] + b;
  }

  lemma FormatDataLine(a: string, field: string, b: string, args: map<string, string>)
    requires "asset" in args && field in args
    ensures Format([Lit(a), Hole("asset"), Lit(": "), Hole(field), Lit(b)], args)
         == Ok(a + args["asset"] + ": " + args[field] + b)
  {
    FormatThree(": ", field, b, args);
    assert Format([Hole("asset"), Lit(": "), Hole(field), Lit(b)], args) == Ok(args["asset"] + ": " + args[field] + b) by {
      assert [Hole("asset"), Lit(": "), Hole(field), Lit(b)][1..] == [Lit(": "), Hole(field), Lit(b)];
      assert args["asset"] + (": " + args[field] + b) == args["asset"] + ": " + args[field] + b;
    }
    assert a + (args["asset"] + ": " + args[field] + b) == a + args["asset"] + ": " + args[field] + b;
    assert [Lit(a), Hole("asset"), Lit(": "), Hole(field), Lit(b)][1..] == [Hole("asset"), Lit(": "), Hole(field), Lit(b)];
  }

  /** The filled template of a selected kind, for well-formed events. */
  lemma GetPromptFills(req: PromptRequest, snap: Snapshot, today: string, show: Value -> string, kind: TemplateKind)
    requires AllHaveClass(snap.activeEvents)
    requires SelectTemplate(req.assistantType, req.asset) == Some(kind)
    ensures Holes(PromptTemplate(kind)) <= SuppliedFields(kind)
    ensures GetPrompt(req, snap, today, show).value
         == Format(PromptTemplate(kind), FormatArgs(kind, req, snap, today, show,
              EventBucketsOf(snap.activeEvents).value, SplitSmas(snap.sma), SplitSupRes(snap.supRes))).value
  {
  }

  /** Where the question block sits among the sections. */
  lemma QuestionBlockAt(kind: TemplateKind)
    ensures |MarketData(kind)| + 4 < |Sections(kind)|
    ensures Sections(kind)[|MarketData(kind)| + 2] == QuestionLine
    ensures Sections(kind)[|MarketData(kind)| + 4] == LevelLine
  {
    var m := MarketData(kind);
    assert Sections(kind) == [Intro(kind)] + m + QuestionBlock + Guidance(kind);
    assert (([Intro(kind)] + m) + QuestionBlock)[|m| + 2] == QuestionBlock[1];
    assert (([Intro(kind)] + m) + QuestionBlock)[|m| + 4] == QuestionBlock[3];
  }

  /** A filled template quotes the query on its own "QUESTION: " line. */
  lemma TemplateQuotesQuery(kind: TemplateKind, args: map<string, string>)
    requires Holes(PromptTemplate(kind)) <= args.Keys && "query" in args
    ensures Contains(Format(PromptTemplate(kind), args).value, "QUESTION: " + args["query"] + "\n")
  {
    QuestionBlockAt(kind);
    FormatFlattenContains(Sections(kind), |MarketData(kind)| + 2, args);
    FormatThree("QUESTION: ", "query", "\n", args);
  }

  /** A three-piece line shows its field between the text around it. */
  lemma FormatThreeQuotes(lead: string, x: string, field: string, y: string, trail: string, args: map<string, string>)
    requires field in args
    ensures Holes([Lit(lead + x), Hole(field), Lit(y + trail)]) <= args.Keys
    ensures Contains(Format([Lit(lead + x), Hole(field), Lit(y + trail)], args).value, x + args[field] + y)
  {
    HolesThree(lead + x, field, y + trail);
    FormatThree(lead + x, field, y + trail, args);
    assert lead + x + args[field] + (y + trail) == lead + (x + args[field] + y) + trail;
    ContainsInfix(lead, x + args[field] + y, trail);
  }

  /** A three-piece line filled reads as its five parts in a row. */
  lemma FormatThreeText(lead: string, x: string, field: string, y: string, trail: string, args: map<string, string>)
    requires field in args
    ensures Format([Lit(lead + x), Hole(field), Lit(y + trail)], args) == Ok(lead + x + args[field] + y + trail)
  {
    FormatThree(lead + x, field, y + trail, args);
    assert lead + x + args[field] + (y + trail) == lead + x + args[field] + y + trail;
  }

  lemma LevelLineStatesLevel(args: map<string, string>)
    requires "experience_user" in args
    ensures Holes(LevelLine) <= args.Keys
    ensures Contains(Format(LevelLine, args).value, "which is '" + args["experience_user"] + "' in this case.")
  {
    FormatThreeQuotes(LevelLead, "which is '", "experience_user", "' in this case.", LevelTrail, args);
  }

  /** A filled template names the knowledge level it was given. */
  lemma TemplateStatesLevel(kind: TemplateKind, args: map<string, string>)
    requires Holes(PromptTemplate(kind)) <= args.Keys && "experience_user" in args
    ensures Contains(Format(PromptTemplate(kind), args).value, "which is '" + args["experience_user"] + "' in this case.")
  {
    QuestionBlockAt(kind);
    FormatFlattenContains(Sections(kind), |MarketData(kind)| + 4, args);
    LevelLineStatesLevel(args);
    ContainsTransitive(Format(PromptTemplate(kind), args).value, Format(LevelLine, args).value,
      "which is '" + args["experience_user"] + "' in this case.");
  }

  /** Whatever template is chosen, the query appears verbatim on the line that starts with "QUESTION: ". */
  lemma PromptQuotesQuery(req: PromptRequest, snap: Snapshot, today: string, show: Value -> string)
    requires AllHaveClass(snap.activeEvents)
    requires SelectTemplate(req.assistantType, req.asset).Some?
    ensures Contains(GetPrompt(req, snap, today, show).value, "QUESTION: " + req.query + "\n")
  {
    var kind := SelectTemplate(req.assistantType, req.asset).value;
    GetPromptFills(req, snap, today, show, kind);
    var args := FormatArgs(kind, req, snap, today, show,
      EventBucketsOf(snap.activeEvents).value, SplitSmas(snap.sma), SplitSupRes(snap.supRes));
    TemplateQuotesQuery(kind, args);
  }

  /** Whatever template is chosen, it names the user's knowledge level, lower-cased. */
  lemma PromptStatesLevel(req: PromptRequest, snap: Snapshot, today: string, show: Value -> string)
    requires AllHaveClass(snap.activeEvents)
    requires SelectTemplate(req.assistantType, req.asset).Some?
    ensures Contains(GetPrompt(req, snap, today, show).value, "which is '" + Lower(req.experienceUser) + "' in this case.")
  {
    var kind := SelectTemplate(req.assistantType, req.asset).value;
    GetPromptFills(req, snap, today, show, kind);
    var args := FormatArgs(kind, req, snap, today, show,
      EventBucketsOf(snap.activeEvents).value, SplitSmas(snap.sma), SplitSupRes(snap.supRes));
    TemplateStatesLevel(kind, args);
  }

  /** Where the first lines of market data sit among the sections of a data template. */
  lemma MarketDataAt(kind: TemplateKind)
    requires kind != General
    ensures |Sections(kind)| > 8
    ensures Sections(kind)[0] == Intro(kind)
    ensures Sections(kind)[3] == SmaShortLine && Sections(kind)[4] == SmaIntermediateLine
    ensures Sections(kind)[5] == SupResShortLine && Sections(kind)[8] == ClassicsLine
  {
    var m := MarketData(kind);
    assert m[2] == SmaShortLine && m[3] == SmaIntermediateLine && m[4] == SupResShortLine && m[7] == ClassicsLine;
    assert Sections(kind) == [Intro(kind)] + m + QuestionBlock + Guidance(kind);
    assert ([Intro(kind)] + m)[3] == m[2];
  }

  /** A data line of a filled template reads "- <caption> of <asset>: <value>". */
  lemma TemplateShowsLine(kind: TemplateKind, i: nat, caption: string, field: string, args: map<string, string>)
    requires kind != General && i < |Sections(kind)|
    requires Sections(kind)[i] == [Lit(caption), Hole("asset"), Lit(": "), Hole(field), Lit("\n")]
    requires Holes(PromptTemplate(kind)) <= args.Keys && "asset" in args && field in args
    ensures Contains(Format(PromptTemplate(kind), args).value, caption + args["asset"] + ": " + args[field] + "\n")
  {
    FormatFlattenContains(Sections(kind), i, args);
    FormatDataLine(caption, field, "\n", args);
  }

  /**
   * A data prompt shows the short- and intermediate-term moving averages
   * and the short-term levels that `split_smas` and `split_sup_res` kept,
   * and the classic patterns that `split_events` sorted out.
   */
  lemma PromptShowsMarketData(req: PromptRequest, snap: Snapshot, today: string, show: Value -> string)
    requires AllHaveClass(snap.activeEvents)
    requires SelectTemplate(req.assistantType, req.asset).Some?
    requires SelectTemplate(req.assistantType, req.asset) != Some(General)
    ensures var prompt := GetPrompt(req, snap, today, show).value;
      && Contains(prompt, "- Simple moving average at short-term of " + req.asset + ": "
                          + show(PyDict(SplitSmas(snap.sma).short)) + "\n")
      && Contains(prompt, "- Simple moving average at intermediate-term of " + req.asset + ": "
                          + show(PyDict(SplitSmas(snap.sma).intermediate)) + "\n")
      && Contains(prompt, "- Support and resistance at short-term of " + req.asset + ": "
                          + show(PyDict(SplitSupRes(snap.supRes).short)) + "\n")
      && Contains(prompt, "- Classic patterns of " + req.asset + ": "
                          + show(EventsValue(EventBucketsOf(snap.activeEvents).value.classics)) + "\n")
  {
    var kind := SelectTemplate(req.assistantType, req.asset).value;
    GetPromptFills(req, snap, today, show, kind);
    var args := FormatArgs(kind, req, snap, today, show,
      EventBucketsOf(snap.activeEvents).value, SplitSmas(snap.sma), SplitSupRes(snap.supRes));
    DataArgsValues(kind, req, snap, today, show,
      EventBucketsOf(snap.activeEvents).value, SplitSmas(snap.sma), SplitSupRes(snap.supRes));
    MarketDataAt(kind);
    TemplateShowsLine(kind, 3, "- Simple moving average at short-term of ", "sma_short", args);
    TemplateShowsLine(kind, 4, "- Simple moving average at intermediate-term of ", "sma_intermediate", args);
    TemplateShowsLine(kind, 5, "- Support and resistance at short-term of ", "sup_res_short", args);
    TemplateShowsLine(kind, 8, "- Classic patterns of ", "classics", args);
  }

  /**
   * The GENERAL prompt does not depend on the market data: two snapshots
   * whose events all carry a class give the same prompt.
   */
  lemma GeneralIgnoresSnapshot(req: PromptRequest, snap1: Snapshot, snap2: Snapshot, today: string, show: Value -> string)
    requires AllHaveClass(snap1.activeEvents) && AllHaveClass(snap2.activeEvents)
    requires SelectTemplate(req.assistantType, req.asset) == Some(General)
    ensures GetPrompt(req, snap1, today, show) == GetPrompt(req, snap2, today, show)
  {
    GetPromptFills(req, snap1, today, show, General);
    GetPromptFills(req, snap2, today, show, General);
    var args1 := FormatArgs(General, req, snap1, today, show,
      EventBucketsOf(snap1.activeEvents).value, SplitSmas(snap1.sma), SplitSupRes(snap1.supRes));
    var args2 := FormatArgs(General, req, snap2, today, show,
      EventBucketsOf(snap2.activeEvents).value, SplitSmas(snap2.sma), SplitSupRes(snap2.supRes));
    FormatDependsOnHoles(PromptTemplate(General), args1, args2);
  }

  lemma DataIntroNamesPersona(args: map<string, string>)
    requires Holes(DataIntro) <= args.Keys && "assistant_type" in args
    ensures Contains(Format(DataIntro, args).value, "helpful financial " + args["assistant_type"] + ".")
  {
    FormatThreeQuotes(DataIntroLead, "helpful financial ", "assistant_type", ".", DataIntroMission, args);
    FormatPrefixContains(DataIntroPersona, DataIntroRest, "helpful financial " + args["assistant_type"] + ".", args);
  }

  /** A filled data intro casts the model as the assistant type it was given. */
  lemma TemplateNamesPersona(kind: TemplateKind, args: map<string, string>)
    requires kind in {Advisory, Analytical}
    requires Holes(PromptTemplate(kind)) <= args.Keys && "assistant_type" in args
    ensures Contains(Format(PromptTemplate(kind), args).value, "helpful financial " + args["assistant_type"] + ".")
  {
    MarketDataAt(kind);
    FormatFlattenContains(Sections(kind), 0, args);
    DataIntroNamesPersona(args);
    ContainsTransitive(Format(PromptTemplate(kind), args).value, Format(DataIntro, args).value,
      "helpful financial " + args["assistant_type"] + ".");
  }

  /** The ADVISORY and ANALYTICAL prompts cast the model as the lower-cased assistant type. */
  lemma PromptNamesPersona(req: PromptRequest, snap: Snapshot, today: string, show: Value -> string)
    requires AllHaveClass(snap.activeEvents)
    requires SelectTemplate(req.assistantType, req.asset) in {Some(Advisory), Some(Analytical)}
    ensures Contains(GetPrompt(req, snap, today, show).value, "helpful financial " + Lower(req.assistantType) + ".")
  {
    var kind := SelectTemplate(req.assistantType, req.asset).value;
    GetPromptFills(req, snap, today, show, kind);
    var args := FormatArgs(kind, req, snap, today, show,
      EventBucketsOf(snap.activeEvents).value, SplitSmas(snap.sma), SplitSupRes(snap.supRes));
    TemplateNamesPersona(kind, args);
  }

  // ---------------------------------------------------------- get_test_prompt

  const CfaTestLead: string := "\n    Imagine you're a helpful CFA EXAM expert,you should only repond the question of the user in this aera. For other type of the question\n\n    just say:'this is not my aera'\n    ----------------------------\n    "
  const CfaTestTrail: string := "    Your response have to be concise and answer only the question of user. \n    Your response should be in Markdown and adapted to the user's knowledge level in finance.The different knowledge levels of the user are:\n    - For Novice user : Use simple words; give a short definition of each indicator and it is interprpretation. Analysis needs to be understandable by users with no knowledge in finance.\n    - Confirmed: The user has some knowledge but is not an expert in finance.\n    - Expert: The user is an expert in finance, so you can elaborate on a sophisticated analysis.\n    You should highlight in bold relevant passages/key words in your response to make it easier to understand.\n    Finally, your response cannot have any notes about rewording or user experience.\n    "

  /** The placeholder that the CFA test prompt carries verbatim. */
  const QueryPlaceholder: string := "{query}"

  /**
   * `get_test_prompt(query)` as written: the text is a plain string
   * literal, not an f-string and never `.format`-ed, so the placeholder
   * stays in the prompt and the query itself is dropped.
   */
  function CfaTestPrompt(query: string): (r: string)
    ensures Contains(r, "QUESTION: " + QueryPlaceholder + "\n")
  {
    ContainsInfix3(CfaTestLead, "QUESTION: ", QueryPlaceholder, "\n", CfaTestTrail);
    CfaTestLead + "QUESTION: " + QueryPlaceholder + "\n" + CfaTestTrail
  }

  /** The CFA test prompt is the same whatever the query, and shows the bare placeholder. */
  lemma CfaTestPromptIgnoresQuery(query1: string, query2: string)
    ensures CfaTestPrompt(query1) == CfaTestPrompt(query2)
    ensures Contains(CfaTestPrompt(query1), "QUESTION: " + QueryPlaceholder + "\n")
  {
  }

  /** The CFA test prompt with its one field, as the text's `{query}` means it. */
  const CfaTestTemplate: Template := [Lit(CfaTestLead + "QUESTION: "), Hole("query"), Lit("\n" + CfaTestTrail)]

  /**
   * `get_test_prompt(query)` filled as intended: the query appears on the
   * "QUESTION: " line, and the placeholder itself as query gives back the
   * text as written.
   */
  function CfaTestPromptFilled(query: string): (r: string)
    ensures Contains(r, "QUESTION: " + query + "\n")
    ensures query == QueryPlaceholder ==> r == CfaTestPrompt(query)
  {
    var args := map["query" := query];
    FormatThreeQuotes(CfaTestLead, "QUESTION: ", "query", "\n", CfaTestTrail, args);
    FormatThreeText(CfaTestLead, "QUESTION: ", "query", "\n", CfaTestTrail, args);
    Format(CfaTestTemplate, args).value
  }
}
