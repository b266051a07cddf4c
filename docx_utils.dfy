/**
 * The agenda renderer: it turns the JSON object returned by the language
 * model into the ordered list of paragraphs of a Word document, one layout
 * for client meetings and one for general meetings. The `docx` library's
 * paragraphs are modelled by `Block`: a heading of level 1 to 3, a
 * paragraph of text runs (some bold), or a bullet at nesting level 0 or 1.
 */
module DocxUtils {
  import opened Js

  datatype Run = Run(text: string, bold: bool)

  datatype Block =
    | Heading(level: nat, text: string)
    | Para(runs: seq<Run>)
    | Bullet(text: string, level: nat)

  datatype Section = Section(children: seq<Block>)

  datatype Document = Document(sections: seq<Section>)

  /** A paragraph given by `text:` alone: one plain run. */
  function Plain(text: string): Block {
    Para([Run(text, false)])
  }

  /** A bold label run followed by a plain value run. */
  function Labelled(caption: string, value: string): Block {
    Para([Run(caption, true), Run(value, false)])
  }

  /** The blocks of every element of `xs`, in order (`for ... of` with `push`). */
  function FlatMap<T>(xs: seq<T>, f: T -> seq<Block>): seq<Block>
    decreases |xs|
  {
    if xs == [] then [] else FlatMap(xs[..|xs| - 1], f) + f(xs[|xs| - 1])
  }

  /** One more pass of a loop over `xs` appends the blocks of `xs[i]`. */
  lemma FlatMapPush<T>(children: seq<Block>, xs: seq<T>, i: nat, f: T -> seq<Block>)
    requires i < |xs|
    ensures children + FlatMap(xs[..i + 1], f) == children + FlatMap(xs[..i], f) + f(xs[i])
  {
    assert xs[..i + 1][..i] == xs[..i];
  }

  // ---------------------------------------------------------------------
  // Client-meeting payload

  datatype ClientInfo = ClientInfo(name: Option<string>, date: Option<string>)

  datatype Summary = Summary(totalValue: Option<string>, totalIncome: Option<string>)

  /** An account; every field arrives display-formatted and is printed as is. */
  datatype Account = Account(
    count: string,
    lastFour: string,
    accountValue: string,
    cashFlow: string,
    performanceYtd: string,
    allocation: string)

  /** A topic item is a plain label or an object with a title and detail lines. */
  datatype TopicItem =
    | Str(text: string)
    | Obj(title: Option<string>, details: Option<seq<string>>)

  datatype Topic = Topic(title: string, notes: Option<string>, items: Option<seq<TopicItem>>)

  datatype ClientData = ClientData(
    client: Option<ClientInfo>,
    summary: Option<Summary>,
    accounts: Option<seq<Account>>,
    otherTopics: Option<seq<Topic>>)

  // `jsonData.client?.name` and its siblings
  function ClientName(d: ClientData): Option<string> {
    if d.client.Some? then d.client.value.name else None
  }

  function ClientDate(d: ClientData): Option<string> {
    if d.client.Some? then d.client.value.date else None
  }

  function TotalValue(d: ClientData): Option<string> {
    if d.summary.Some? then d.summary.value.totalValue else None
  }

  function TotalIncome(d: ClientData): Option<string> {
    if d.summary.Some? then d.summary.value.totalIncome else None
  }

  /** Title, date and the account summary: always present. */
  function ClientHeader(d: ClientData): seq<Block> {
    [ Heading(1, Or(ClientName(d), "N/A") + " - Meeting Agenda"),
      Plain("Date: " + Or(ClientDate(d), "N/A")),
      Heading(2, "Account Summary"),
      Labelled("Total Portfolio Value: ", Or(TotalValue(d), "N/A")),
      Labelled("Total Annual Income: ", Or(TotalIncome(d), "N/A")) ]
  }

  function AccountHeading(a: Account): string {
    "Account " + a.count + ": xxxx-" + a.lastFour
  }

  function AccountBlocks(a: Account): seq<Block> {
    [ Heading(3, AccountHeading(a)),
      Labelled("Value: ", a.accountValue),
      Labelled("Cash Flow: ", a.cashFlow),
      Labelled("YTD Performance: ", a.performanceYtd),
      Labelled("Allocation: ", a.allocation) ]
  }

  function AccountSection(accounts: seq<Account>): seq<Block> {
    if |accounts| > 0 then [Heading(2, "Account Details")] + FlatMap(accounts, AccountBlocks) else []
  }

  function DetailBullet(detail: string): seq<Block> {
    [Bullet(detail, 1)]
  }

  /** A string item is one bullet; an object item with a truthy title is a bullet and its
      details one level deeper; an object item without a title is skipped. */
  function ItemBlocks(item: TopicItem): seq<Block> {
    match item
    case Str(text) => [Bullet(text, 0)]
    case Obj(title, details) =>
      if Truthy(title) then [Bullet(title.value, 0)] + FlatMap(OrEmpty(details), DetailBullet) else []
  }

  /** The paragraph for a `notes` field, emitted only when it is truthy. */
  function NotesBlock(notes: Option<string>): seq<Block> {
    if Truthy(notes) then [Plain(notes.value)] else []
  }

  function TopicBlocks(t: Topic): seq<Block> {
    [Heading(3, t.title)] + NotesBlock(t.notes) + FlatMap(OrEmpty(t.items), ItemBlocks)
  }

  function TopicSection(topics: seq<Topic>): seq<Block> {
    if |topics| > 0 then [Heading(2, "Discussion Topics")] + FlatMap(topics, TopicBlocks) else []
  }

  /** The body of a client-meeting agenda. */
  function ClientBlocks(d: ClientData): seq<Block> {
    ClientHeader(d) + AccountSection(OrEmpty(d.accounts)) + TopicSection(OrEmpty(d.otherTopics))
  }

  // ---------------------------------------------------------------------
  // General-meeting payload

  /** `participants` is meant to be an array; any other value is printed with `toString`. */
  datatype Participants = Names(names: seq<string>) | Written(text: string)

  datatype Meeting = Meeting(title: Option<string>, date: Option<string>, participants: Option<Participants>)

  datatype Objective = Objective(summary: Option<string>, details: Option<string>)

  /** `order` is carried but never used to sort. */
  datatype AgendaItem = AgendaItem(
    order: int,
    title: string,
    timeAllocation: Option<string>,
    presenter: Option<string>,
    notes: Option<string>,
    subItems: Option<seq<string>>)

  datatype ActionItem = ActionItem(description: string, owner: Option<string>, dueDate: Option<string>)

  datatype NextSteps = NextSteps(actionItems: Option<seq<ActionItem>>, nextMeeting: Option<string>)

  datatype GeneralData = GeneralData(
    meeting: Option<Meeting>,
    objective: Option<Objective>,
    agendaItems: Option<seq<AgendaItem>>,
    additionalNotes: Option<string>,
    nextSteps: Option<NextSteps>)

  function MeetingTitle(d: GeneralData): Option<string> {
    if d.meeting.Some? then d.meeting.value.title else None
  }

  function MeetingDate(d: GeneralData): Option<string> {
    if d.meeting.Some? then d.meeting.value.date else None
  }

  function MeetingParticipants(d: GeneralData): Option<Participants> {
    if d.meeting.Some? then d.meeting.value.participants else None
  }

  function ObjectiveSummary(d: GeneralData): Option<string> {
    if d.objective.Some? then d.objective.value.summary else None
  }

  function ObjectiveDetails(d: GeneralData): Option<string> {
    if d.objective.Some? then d.objective.value.details else None
  }

  function ActionItems(d: GeneralData): seq<ActionItem> {
    if d.nextSteps.Some? then OrEmpty(d.nextSteps.value.actionItems) else []
  }

  function NextMeeting(d: GeneralData): Option<string> {
    if d.nextSteps.Some? then d.nextSteps.value.nextMeeting else None
  }

  /** `participants.length > 0` after `|| []`: a non-empty array or a non-empty string. */
  predicate HasParticipants(p: Option<Participants>) {
    p.Some? &&
    match p.value
    case Names(names) => |names| > 0
    case Written(text) => |text| > 0
  }

  function ParticipantsText(p: Participants): string {
    match p
    case Names(names) => Join(names, ", ")
    case Written(text) => text
  }

  function ParticipantsSection(p: Option<Participants>): seq<Block> {
    if HasParticipants(p) then [Heading(3, "Participants:"), Plain(ParticipantsText(p.value))] else []
  }

  function ObjectiveSection(summary: Option<string>, details: Option<string>): seq<Block> {
    if Truthy(summary) then [Heading(2, "Meeting Objective"), Plain(summary.value)] + NotesBlock(details) else []
  }

  /** The heading of an agenda item: title, then the time, then the presenter. */
  function AgendaItemTitle(item: AgendaItem): string {
    item.title
    + (if Truthy(item.timeAllocation) then " (" + item.timeAllocation.value + ")" else "")
    + (if Truthy(item.presenter) then " - " + item.presenter.value else "")
  }

  function SubItemBullet(subItem: string): seq<Block> {
    [Bullet(subItem, 0)]
  }

  function AgendaItemBlocks(item: AgendaItem): seq<Block> {
    [Heading(3, AgendaItemTitle(item))] + NotesBlock(item.notes) + FlatMap(OrEmpty(item.subItems), SubItemBullet)
  }

  function AgendaSection(items: seq<AgendaItem>): seq<Block> {
    if |items| > 0 then [Heading(2, "Agenda Items")] + FlatMap(items, AgendaItemBlocks) else []
  }

  /** A heading and a paragraph, emitted only when the field is truthy. */
  function TextSection(heading: string, field: Option<string>): seq<Block> {
    if Truthy(field) then [Heading(2, heading), Plain(field.value)] else []
  }

  /** The bullet of an action item: description, then the owner, then the due date. */
  function ActionText(a: ActionItem): string {
    a.description
    + (if Truthy(a.owner) then " (Owner: " + a.owner.value + ")" else "")
    + (if Truthy(a.dueDate) then " - Due: " + a.dueDate.value else "")
  }

  function ActionBlocks(a: ActionItem): seq<Block> {
    [Bullet(ActionText(a), 0)]
  }

  function ActionSection(actions: seq<ActionItem>): seq<Block> {
    if |actions| > 0 then [Heading(2, "Action Items")] + FlatMap(actions, ActionBlocks) else []
  }

  function GeneralHeader(d: GeneralData): seq<Block> {
    [ Heading(1, Or(MeetingTitle(d), "Meeting Agenda")),
      Plain("Date: " + Or(MeetingDate(d), "N/A")) ]
  }

  /** The body of a general-meeting agenda. */
  function GeneralBlocks(d: GeneralData): seq<Block> {
    GeneralHeader(d)
    + ParticipantsSection(MeetingParticipants(d))
    + ObjectiveSection(ObjectiveSummary(d), ObjectiveDetails(d))
    + AgendaSection(OrEmpty(d.agendaItems))
    + TextSection("Additional Notes", d.additionalNotes)
    + ActionSection(ActionItems(d))
    + TextSection("Next Meeting", NextMeeting(d))
  }

  // ---------------------------------------------------------------------
  // The two builders, as the source runs them: `children.push` in loops,
  // then the first section of a fresh document is replaced.

  function EmptyDocument(): Document {
    Document([Section([])])
  }

  method ProcessClientMeetingData(jsonData: ClientData) returns (doc: Document)
    ensures doc == Document([Section(ClientBlocks(jsonData))])
  {
    doc := EmptyDocument();

    var clientName := Or(ClientName(jsonData), "N/A");
    var meetingDate := Or(ClientDate(jsonData), "N/A");
    var totalValue := Or(TotalValue(jsonData), "N/A");
    var totalIncome := Or(TotalIncome(jsonData), "N/A");
    var accounts := OrEmpty(jsonData.accounts);
    var otherTopics := OrEmpty(jsonData.otherTopics);

    var children: seq<Block> := [];
    children := children + [Heading(1, clientName + " - Meeting Agenda")];
    children := children + [Plain("Date: " + meetingDate)];
    children := children + [Heading(2, "Account Summary")];
    children := children + [Labelled("Total Portfolio Value: ", totalValue)];
    children := children + [Labelled("Total Annual Income: ", totalIncome)];
    assert children == ClientHeader(jsonData);
    children := PushAccountSection(children, accounts);
    children := PushTopicSection(children, otherTopics);

    doc := doc.(sections := doc.sections[0 := Section(children)]);
  }

  /** `if (accounts.length > 0)`: the heading, then five blocks per account, in input order. */
  method PushAccountSection(children: seq<Block>, accounts: seq<Account>) returns (out: seq<Block>)
    ensures out == children + AccountSection(accounts)
  {
    out := children;
    if |accounts| > 0 {
      out := out + [Heading(2, "Account Details")];
      out := PushAccounts(out, accounts);
    }
  }

  /** The loop `for (const account of accounts)`. */
  method PushAccounts(children: seq<Block>, accounts: seq<Account>) returns (out: seq<Block>)
    ensures out == children + FlatMap(accounts, AccountBlocks)
  {
    out := children;
    for i := 0 to |accounts|
      invariant out == children + FlatMap(accounts[..i], AccountBlocks)
    {
      var account := accounts[i];
      out := out + [Heading(3, "Account " + account.count + ": xxxx-" + account.lastFour)];
      out := out + [Labelled("Value: ", account.accountValue)];
      out := out + [Labelled("Cash Flow: ", account.cashFlow)];
      out := out + [Labelled("YTD Performance: ", account.performanceYtd)];
      out := out + [Labelled("Allocation: ", account.allocation)];
      FlatMapPush(children, accounts, i, AccountBlocks);
    }
    assert accounts[..|accounts|] == accounts;
  }

  /** `if (otherTopics.length > 0)`: the heading, then each topic in input order. */
  method PushTopicSection(children: seq<Block>, topics: seq<Topic>) returns (out: seq<Block>)
    ensures out == children + TopicSection(topics)
  {
    out := children;
    if |topics| > 0 {
      out := out + [Heading(2, "Discussion Topics")];
      out := PushTopics(out, topics);
    }
  }

  /** The loop `for (const topic of otherTopics)`. */
  method PushTopics(children: seq<Block>, topics: seq<Topic>) returns (out: seq<Block>)
    ensures out == children + FlatMap(topics, TopicBlocks)
  {
    out := children;
    for i := 0 to |topics|
      invariant out == children + FlatMap(topics[..i], TopicBlocks)
    {
      out := PushTopic(out, topics[i]);
      FlatMapPush(children, topics, i, TopicBlocks);
    }
    assert topics[..|topics|] == topics;
  }

  /** One pass of the loop over `otherTopics`: the heading, the notes, the items. */
  method PushTopic(children: seq<Block>, topic: Topic) returns (out: seq<Block>)
    ensures out == children + TopicBlocks(topic)
  {
    out := children + [Heading(3, topic.title)];
    if Truthy(topic.notes) {
      out := out + [Plain(topic.notes.value)];
    }
    var items := OrEmpty(topic.items);
    if |items| > 0 {
      out := PushItems(out, items);
    }
  }

  /** The loop `for (const item of topic.items)`. */
  method PushItems(children: seq<Block>, items: seq<TopicItem>) returns (out: seq<Block>)
    ensures out == children + FlatMap(items, ItemBlocks)
  {
    out := children;
    for j := 0 to |items|
      invariant out == children + FlatMap(items[..j], ItemBlocks)
    {
      out := PushItem(out, items[j]);
      FlatMapPush(children, items, j, ItemBlocks);
    }
    assert items[..|items|] == items;
  }

  /** One pass of the loop over a topic's `items`. */
  method PushItem(children: seq<Block>, item: TopicItem) returns (out: seq<Block>)
    ensures out == children + ItemBlocks(item)
  {
    out := children;
    match item {
      case Str(text) =>
        out := out + [Bullet(text, 0)];
      case Obj(title, details) =>
        if Truthy(title) {
          out := out + [Bullet(title.value, 0)];
          var ds := OrEmpty(details);
          for k := 0 to |ds|
            invariant out == children + [Bullet(title.value, 0)] + FlatMap(ds[..k], DetailBullet)
          {
            out := out + [Bullet(ds[k], 1)];
            FlatMapPush(children + [Bullet(title.value, 0)], ds, k, DetailBullet);
          }
          assert ds[..|ds|] == ds;
        }
    }
  }

  method ProcessGeneralMeetingData(jsonData: GeneralData) returns (doc: Document)
    ensures doc == Document([Section(GeneralBlocks(jsonData))])
  {
    doc := EmptyDocument();

    var meetingTitle := Or(MeetingTitle(jsonData), "Meeting Agenda");
    var meetingDate := Or(MeetingDate(jsonData), "N/A");
    var participants := MeetingParticipants(jsonData);
    var objective := ObjectiveSummary(jsonData);
    var objectiveDetails := ObjectiveDetails(jsonData);
    var agendaItems := OrEmpty(jsonData.agendaItems);
    var additionalNotes := jsonData.additionalNotes;
    var actionItems := ActionItems(jsonData);
    var nextMeeting := NextMeeting(jsonData);

    var children: seq<Block> := [];
    children := children + [Heading(1, meetingTitle)];
    children := children + [Plain("Date: " + meetingDate)];
    assert children == GeneralHeader(jsonData);
    children := PushParticipants(children, participants);
    children := PushObjective(children, objective, objectiveDetails);
    children := PushAgendaSection(children, agendaItems);
    children := PushTextSection(children, "Additional Notes", additionalNotes);
    children := PushActionSection(children, actionItems);
    children := PushTextSection(children, "Next Meeting", nextMeeting);

    doc := doc.(sections := doc.sections[0 := Section(children)]);
  }

  /** `if (participants.length > 0)`: a level-3 heading and the joined names. */
  method PushParticipants(children: seq<Block>, participants: Option<Participants>) returns (out: seq<Block>)
    ensures out == children + ParticipantsSection(participants)
  {
    out := children;
    if HasParticipants(participants) {
      out := out + [Heading(3, "Participants:")];
      out := out + [Plain(ParticipantsText(participants.value))];
    }
  }

  /** `if (objective)`: the heading, the summary, and the details only inside this branch. */
  method PushObjective(children: seq<Block>, objective: Option<string>, objectiveDetails: Option<string>)
    returns (out: seq<Block>)
    ensures out == children + ObjectiveSection(objective, objectiveDetails)
  {
    out := children;
    if Truthy(objective) {
      out := out + [Heading(2, "Meeting Objective")];
      out := out + [Plain(objective.value)];
      if Truthy(objectiveDetails) {
        out := out + [Plain(objectiveDetails.value)];
      }
    }
  }

  /** `if (agendaItems.length > 0)`: the heading, then each item in input order. */
  method PushAgendaSection(children: seq<Block>, items: seq<AgendaItem>) returns (out: seq<Block>)
    ensures out == children + AgendaSection(items)
  {
    out := children;
    if |items| > 0 {
      out := out + [Heading(2, "Agenda Items")];
      out := PushAgendaItems(out, items);
    }
  }

  /** The loop `for (const item of agendaItems)`. */
  method PushAgendaItems(children: seq<Block>, items: seq<AgendaItem>) returns (out: seq<Block>)
    ensures out == children + FlatMap(items, AgendaItemBlocks)
  {
    out := children;
    for i := 0 to |items|
      invariant out == children + FlatMap(items[..i], AgendaItemBlocks)
    {
      out := PushAgendaItem(out, items[i]);
      FlatMapPush(children, items, i, AgendaItemBlocks);
    }
    assert items[..|items|] == items;
  }

  /** One pass of the loop over `agendaItems`: `titleText` grows with `+=`. */
  method PushAgendaItem(children: seq<Block>, item: AgendaItem) returns (out: seq<Block>)
    ensures out == children + AgendaItemBlocks(item)
  {
    var titleText := item.title;
    if Truthy(item.timeAllocation) {
      titleText := titleText + (" (" + item.timeAllocation.value + ")");
    }
    if Truthy(item.presenter) {
      titleText := titleText + (" - " + item.presenter.value);
    }
    assert titleText == AgendaItemTitle(item);
    out := children + [Heading(3, titleText)];
    if Truthy(item.notes) {
      out := out + [Plain(item.notes.value)];
    }
    var subItems := OrEmpty(item.subItems);
    if |subItems| > 0 {
      out := PushSubItems(out, subItems);
    }
  }

  /** The loop `for (const subItem of item.subItems)`. */
  method PushSubItems(children: seq<Block>, subItems: seq<string>) returns (out: seq<Block>)
    ensures out == children + FlatMap(subItems, SubItemBullet)
  {
    out := children;
    for j := 0 to |subItems|
      invariant out == children + FlatMap(subItems[..j], SubItemBullet)
    {
      out := out + [Bullet(subItems[j], 0)];
      FlatMapPush(children, subItems, j, SubItemBullet);
    }
    assert subItems[..|subItems|] == subItems;
  }

  /** A level-2 heading and one paragraph, only when the field is truthy
      (`additionalNotes`, `nextMeeting`). */
  method PushTextSection(children: seq<Block>, heading: string, field: Option<string>) returns (out: seq<Block>)
    ensures out == children + TextSection(heading, field)
  {
    out := children;
    if Truthy(field) {
      out := out + [Heading(2, heading)];
      out := out + [Plain(field.value)];
    }
  }

  /** `if (actionItems.length > 0)`: the heading, then one bullet per item; `actionText`
      grows with `+=`. */
  method PushActionSection(children: seq<Block>, items: seq<ActionItem>) returns (out: seq<Block>)
    ensures out == children + ActionSection(items)
  {
    out := children;
    if |items| > 0 {
      out := out + [Heading(2, "Action Items")];
      out := PushActionItems(out, items);
    }
  }

  /** The loop `for (const item of actionItems)`: `actionText` grows with `+=`. */
  method PushActionItems(children: seq<Block>, items: seq<ActionItem>) returns (out: seq<Block>)
    ensures out == children + FlatMap(items, ActionBlocks)
  {
    out := children;
    for i := 0 to |items|
      invariant out == children + FlatMap(items[..i], ActionBlocks)
    {
      var item := items[i];
      var actionText := item.description;
      if Truthy(item.owner) {
        actionText := actionText + (" (Owner: " + item.owner.value + ")");
      }
      if Truthy(item.dueDate) {
        actionText := actionText + (" - Due: " + item.dueDate.value);
      }
      assert actionText == ActionText(item);
      out := out + [Bullet(actionText, 0)];
      FlatMapPush(children, items, i, ActionBlocks);
    }
    assert items[..|items|] == items;
  }

  const PlaceholderText: string :=
    "This is a placeholder template. Please place your actual template file at the specified location."

  /** The fallback template: a title heading and one placeholder paragraph. */
  function DefaultTemplate(): (doc: Document)
    ensures |doc.sections| == 1 && |doc.sections[0].children| == 2
    ensures doc.sections[0].children[0] == Heading(1, "Meeting Agenda")
    ensures doc.sections[0].children[1].Para?
  {
    Document([Section([
      Heading(1, "Meeting Agenda"),
      Plain(PlaceholderText)])])
  }
}
