/**
 * The prompt builder: turns the submitted agenda form into the text sent to the
 * language model, as the system prompt for the meeting type followed by a
 * "USER INPUT:" block of `### Name ###` sections.
 *
 * `JSON.parse` of the talking-points field is a parameter: what the model needs
 * of it is only which kind of value comes back.
 */
module PromptUtils {
  import opened Js

  /** The two system prompts from the configuration, passed in. */
  datatype BasePrompts = BasePrompts(clientMeetingPrompt: string, generalMeetingPrompt: string)

  /** What `JSON.parse(talkingPoints)` yields, as far as the builder looks at it:
      it throws (`Invalid`), an array of talking points, or any other value, of which
      only whether the guard `value && value.length > 0` holds matters. The guard
      holds for a non-empty string or an object with a positive `length`, and fails
      for `null`, numbers, booleans and other objects. No such value has a `forEach`
      that can be called, since JSON holds no functions. */
  datatype Parsed = Invalid | PointList(points: seq<TalkingPoint>) | NonArray(positiveLength: bool)

  /** The fields of a client-meeting request body; `file` is whether the body has one. */
  datatype ClientForm = ClientForm(
    clientName: Option<string>,
    meetingDate: Option<string>,
    file: bool,
    advisorPreferences: Option<string>,
    customInstructions: Option<string>,
    talkingPoints: Option<string>)

  datatype GeneralForm = GeneralForm(
    meetingTitle: Option<string>,
    meetingDate: Option<string>,
    meetingParticipants: Option<string>,
    meetingObjective: Option<string>,
    customInstructions: Option<string>,
    talkingPoints: Option<string>)

  const Delimiter: string := "\n\nUSER INPUT:\n"
  const ClientNameLine: string := "### Client Name ###\n"
  const MeetingTitleLine: string := "### Meeting Title ###\n"
  const MeetingDateLine: string := "\n### Meeting Date ###\n"
  const ReportNotice: string := "\n### PDF Performance Report ###\nSee attached"

  /** A section on its own line: `### name ###`, then the value on the next line. */
  function Field(name: string, value: string): string {
    "\n### " + name + " ###\n" + value
  }

  /** A section emitted only when its field is truthy. */
  function OptionalField(name: string, value: Option<string>): string {
    if Truthy(value) then Field(name, value.value) else ""
  }

  /** The heading line of the talking-points section. */
  function TopicsHeading(heading: string): string {
    "\n### " + heading + " ###"
  }

  /** One talking point: `- title`, then `: notes` when the notes are non-empty. */
  function PointLine(p: TalkingPoint): string {
    "\n- " + p.title + (if p.notes != "" then ": " + p.notes else "")
  }

  /** The strings of the elements of `xs`, concatenated in order. */
  function ConcatMap<T>(xs: seq<T>, f: T -> string): string
    decreases |xs|
  {
    if xs == [] then "" else ConcatMap(xs[..|xs| - 1], f) + f(xs[|xs| - 1])
  }

  /** The lines of the points, in order (`forEach` with `+=`). */
  function PointLines(points: seq<TalkingPoint>): string {
    ConcatMap(points, PointLine)
  }

  /** The talking-points section: nothing when the field is falsy or the parsed value fails
      the length guard; the heading and one line per point for a non-empty array; the
      heading alone for any other value passing the guard, since its `forEach` throws after
      the heading was appended. */
  function TopicsSection(heading: string, talkingPoints: Option<string>, parse: string -> Parsed): string {
    if !Truthy(talkingPoints) then ""
    else
      match parse(talkingPoints.value)
      case PointList(points) => if |points| > 0 then TopicsHeading(heading) + PointLines(points) else ""
      case NonArray(positiveLength) => if positiveLength then TopicsHeading(heading) else ""
      case Invalid => ""
  }

  /** The system prompt, the delimiter, then the user message. */
  function FullPrompt(base: string, userMessage: string): string {
    base + Delimiter + userMessage
  }

  // ---------------------------------------------------------------------
  // Client meeting

  function ClientHeader(form: ClientForm): string {
    ClientNameLine + Or(form.clientName, "N/A") + MeetingDateLine + Or(form.meetingDate, "N/A")
  }

  function ClientUserMessage(form: ClientForm, parse: string -> Parsed): string {
    ClientHeader(form)
    + (if form.file then ReportNotice else "")
    + OptionalField("Advisor Preferences", form.advisorPreferences)
    + TopicsSection("Additional Topics", form.talkingPoints, parse)
    + OptionalField("Additional Instructions", form.customInstructions)
  }

  method GenerateClientMeetingPrompt(prompts: BasePrompts, formData: ClientForm, parse: string -> Parsed)
    returns (r: string)
    ensures r == FullPrompt(prompts.clientMeetingPrompt, ClientUserMessage(formData, parse))
  {
    var userMessage := ClientNameLine + Or(formData.clientName, "N/A") + MeetingDateLine + Or(formData.meetingDate, "N/A");
    if formData.file {
      userMessage := userMessage + ReportNotice;
    }
    assert userMessage == ClientHeader(formData) + (if formData.file then ReportNotice else "");
    ghost var sofar := userMessage;
    if Truthy(formData.advisorPreferences) {
      userMessage := userMessage + Field("Advisor Preferences", formData.advisorPreferences.value);
    }
    assert userMessage == sofar + OptionalField("Advisor Preferences", formData.advisorPreferences);
    userMessage := AppendTalkingPoints(userMessage, "Additional Topics", formData.talkingPoints, parse);
    sofar := userMessage;
    if Truthy(formData.customInstructions) {
      userMessage := userMessage + Field("Additional Instructions", formData.customInstructions.value);
    }
    assert userMessage == sofar + OptionalField("Additional Instructions", formData.customInstructions);
    r := prompts.clientMeetingPrompt + Delimiter + userMessage;
  }

  // ---------------------------------------------------------------------
  // General meeting

  function GeneralHeader(form: GeneralForm): string {
    MeetingTitleLine + Or(form.meetingTitle, "General Meeting") + MeetingDateLine + Or(form.meetingDate, "N/A")
  }

  function GeneralUserMessage(form: GeneralForm, parse: string -> Parsed): string {
    GeneralHeader(form)
    + OptionalField("Participants", form.meetingParticipants)
    + OptionalField("Objective", form.meetingObjective)
    + TopicsSection("Agenda Items", form.talkingPoints, parse)
    + OptionalField("Additional Instructions", form.customInstructions)
  }

  method GenerateGeneralMeetingPrompt(prompts: BasePrompts, formData: GeneralForm, parse: string -> Parsed)
    returns (r: string)
    ensures r == FullPrompt(prompts.generalMeetingPrompt, GeneralUserMessage(formData, parse))
  {
    var userMessage := MeetingTitleLine + Or(formData.meetingTitle, "General Meeting")
      + MeetingDateLine + Or(formData.meetingDate, "N/A");
    ghost var sofar := userMessage;
    if Truthy(formData.meetingParticipants) {
      userMessage := userMessage + Field("Participants", formData.meetingParticipants.value);
    }
    assert userMessage == sofar + OptionalField("Participants", formData.meetingParticipants);
    sofar := userMessage;
    if Truthy(formData.meetingObjective) {
      userMessage := userMessage + Field("Objective", formData.meetingObjective.value);
    }
    assert userMessage == sofar + OptionalField("Objective", formData.meetingObjective);
    userMessage := AppendTalkingPoints(userMessage, "Agenda Items", formData.talkingPoints, parse);
    sofar := userMessage;
    if Truthy(formData.customInstructions) {
      userMessage := userMessage + Field("Additional Instructions", formData.customInstructions.value);
    }
    assert userMessage == sofar + OptionalField("Additional Instructions", formData.customInstructions);
    r := prompts.generalMeetingPrompt + Delimiter + userMessage;
  }

  // ---------------------------------------------------------------------
  // The talking-points block both builders share

  /** `forEach` over the points: one line per point, appended in input order. */
  method AppendPointLines(start: string, points: seq<TalkingPoint>) returns (out: string)
    ensures out == start + PointLines(points)
  {
    out := start;
    for i := 0 to |points|
      invariant out == start + PointLines(points[..i])
    {
      var point := points[i];
      PointLinesPush(start, points, i);
      out := out + ("\n- " + point.title + (if point.notes != "" then ": " + point.notes else ""));
    }
    assert points[..|points|] == points;
  }

  /** `if (talkingPoints) { try { ... } catch { } }`: parse, append the heading when the
      result is truthy with a positive length, then one line per point. */
  method AppendTalkingPoints(userMessage: string, heading: string, talkingPoints: Option<string>,
                             parse: string -> Parsed)
    returns (out: string)
    ensures out == userMessage + TopicsSection(heading, talkingPoints, parse)
  {
    out := userMessage;
    if Truthy(talkingPoints) {
      var parsed := parse(talkingPoints.value);
      match parsed {
        case PointList(points) =>
          if |points| > 0 {
            out := AppendPointLines(out + TopicsHeading(heading), points);
          }
        case NonArray(positiveLength) =>
          // The guard passes, so the heading is appended; calling `forEach` then throws
          // and the exception is caught.
          if positiveLength {
            out := out + TopicsHeading(heading);
          }
        case Invalid =>
      }
    }
  }

  // ---------------------------------------------------------------------
  // Properties

  /** The prompt is the system prompt, then the delimiter, then the user message, each
      recoverable from the whole. */
  lemma PromptFraming(base: string, userMessage: string)
    ensures |FullPrompt(base, userMessage)| == |base| + |Delimiter| + |userMessage|
    ensures FullPrompt(base, userMessage)[..|base|] == base
    ensures FullPrompt(base, userMessage)[|base|..|base| + |Delimiter|] == Delimiter
    ensures FullPrompt(base, userMessage)[|base| + |Delimiter|..] == userMessage
  {
    var r := FullPrompt(base, userMessage);
    assert r == base + (Delimiter + userMessage);
    assert r[..|base|] == base;
    assert r[|base|..] == Delimiter + userMessage;
    assert r[|base|..][..|Delimiter|] == Delimiter;
    assert r[|base|..][|Delimiter|..] == userMessage;
  }

  lemma {:induction false} ConcatMapAppend<T>(a: seq<T>, b: seq<T>, f: T -> string)
    ensures ConcatMap(a + b, f) == ConcatMap(a, f) + ConcatMap(b, f)
    decreases |b|
  {
    if b == [] {
      assert a + b == a;
    } else {
      var init := b[..|b| - 1];
      assert (a + b)[..|a + b| - 1] == a + init;
      ConcatMapAppend(a, init, f);
    }
  }

  /** One more point adds its line at the end. */
  lemma PointLinesPush(start: string, points: seq<TalkingPoint>, i: nat)
    requires i < |points|
    ensures start + PointLines(points[..i + 1]) == start + PointLines(points[..i]) + PointLine(points[i])
  {
    assert points[..i + 1][..i] == points[..i];
  }

  /** The lines of two lists of points are the lines of each, in order. */
  lemma PointLinesAppend(a: seq<TalkingPoint>, b: seq<TalkingPoint>)
    ensures PointLines(a + b) == PointLines(a) + PointLines(b)
  {
    ConcatMapAppend(a, b, PointLine);
  }

  /** Point `i`'s line sits between the lines of the points before it and those after it. */
  lemma PointLinesAt(points: seq<TalkingPoint>, i: nat)
    requires i < |points|
    ensures PointLines(points) ==
      PointLines(points[..i]) + PointLine(points[i]) + PointLines(points[i + 1..])
  {
    assert points[..i + 1][..i] == points[..i];
    assert points == points[..i + 1] + points[i + 1..];
    ConcatMapAppend(points[..i + 1], points[i + 1..], PointLine);
  }

  /** A line shows the notes after ": " exactly when they are non-empty. */
  lemma PointLineShape(p: TalkingPoint)
    ensures p.notes == "" ==> PointLine(p) == "\n- " + p.title
    ensures p.notes != "" ==> PointLine(p) == "\n- " + p.title + ": " + p.notes
  {
  }

  /** The talking-points section is present exactly when the field is truthy and parses to a
      value passing the length guard; it then opens with the heading. */
  lemma TopicsSectionPresence(heading: string, talkingPoints: Option<string>, parse: string -> Parsed)
    ensures TopicsSection(heading, talkingPoints, parse) != "" <==>
      Truthy(talkingPoints) &&
      match parse(talkingPoints.value)
      case PointList(points) => |points| > 0
      case NonArray(positiveLength) => positiveLength
      case Invalid => false
    ensures TopicsSection(heading, talkingPoints, parse) != "" ==>
      TopicsHeading(heading) <= TopicsSection(heading, talkingPoints, parse)
  {
    if Truthy(talkingPoints) {
      var h := TopicsHeading(heading);
      assert |h| > 0;
      match parse(talkingPoints.value)
      case PointList(points) =>
        if |points| > 0 {
          assert (h + PointLines(points))[..|h|] == h;
        }
      case NonArray(_) =>
      case Invalid =>
    }
  }

  /** A talking-points field that does not parse, or parses to a value failing the length
      guard, leaves the client message as if the field were absent. */
  lemma ClientParseFailureIgnored(form: ClientForm, parse: string -> Parsed)
    requires Truthy(form.talkingPoints)
    requires parse(form.talkingPoints.value).Invalid? || parse(form.talkingPoints.value) == NonArray(false)
      || parse(form.talkingPoints.value) == PointList([])
    ensures ClientUserMessage(form, parse) == ClientUserMessage(form.(talkingPoints := None), parse)
  {
    TopicsSectionPresence("Additional Topics", form.talkingPoints, parse);
  }

  /** The same for the general message. */
  lemma GeneralParseFailureIgnored(form: GeneralForm, parse: string -> Parsed)
    requires Truthy(form.talkingPoints)
    requires parse(form.talkingPoints.value).Invalid? || parse(form.talkingPoints.value) == NonArray(false)
      || parse(form.talkingPoints.value) == PointList([])
    ensures GeneralUserMessage(form, parse) == GeneralUserMessage(form.(talkingPoints := None), parse)
  {
    TopicsSectionPresence("Agenda Items", form.talkingPoints, parse);
  }

  /** A message of five parts opens with its first part, and is exactly that part when the
      others are empty. */
  lemma PrefixOfParts(h: string, a: string, b: string, c: string, d: string)
    ensures h <= h + a + b + c + d
    ensures a == "" && b == "" && c == "" && d == "" ==> h + a + b + c + d == h
  {
    assert h + a + b + c + d == h + (a + b + c + d);
    assert (h + (a + b + c + d))[..|h|] == h;
  }

  /** The client message opens with the name and the date; with no file and every optional
      field falsy, that is the whole message. */
  lemma ClientMessageShape(form: ClientForm, parse: string -> Parsed)
    ensures ClientHeader(form) <= ClientUserMessage(form, parse)
    ensures (!form.file && !Truthy(form.advisorPreferences) && !Truthy(form.talkingPoints)
      && !Truthy(form.customInstructions)) ==> ClientUserMessage(form, parse) == ClientHeader(form)
  {
    PrefixOfParts(ClientHeader(form), if form.file then ReportNotice else "",
      OptionalField("Advisor Preferences", form.advisorPreferences),
      TopicsSection("Additional Topics", form.talkingPoints, parse),
      OptionalField("Additional Instructions", form.customInstructions));
  }

  /** The general message opens with the title and the date; with every optional field
      falsy, that is the whole message. */
  lemma GeneralMessageShape(form: GeneralForm, parse: string -> Parsed)
    ensures GeneralHeader(form) <= GeneralUserMessage(form, parse)
    ensures (!Truthy(form.meetingParticipants) && !Truthy(form.meetingObjective)
      && !Truthy(form.talkingPoints) && !Truthy(form.customInstructions)) ==>
      GeneralUserMessage(form, parse) == GeneralHeader(form)
  {
    PrefixOfParts(GeneralHeader(form),
      OptionalField("Participants", form.meetingParticipants),
      OptionalField("Objective", form.meetingObjective),
      TopicsSection("Agenda Items", form.talkingPoints, parse),
      OptionalField("Additional Instructions", form.customInstructions));
  }
}
