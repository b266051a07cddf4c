/**
 * What the two agenda builders put into a document, read back from the block list:
 * which section headings appear and in which order, which blocks every entry
 * contributes, and the defaults that keep a field from rendering blank.
 */
module DocxLayout {
  import opened Js
  import opened DocxUtils

  // ---------------------------------------------------------------------
  // Reading a block list back: the headings of one level, the top-level bullets.

  function HeadingText(b: Block, level: nat): seq<string> {
    if b.Heading? && b.level == level then [b.text] else []
  }

  /** The texts of the headings of one level, in document order. */
  function HeadingTexts(bs: seq<Block>, level: nat): seq<string>
    decreases |bs|
  {
    if bs == [] then [] else HeadingTexts(bs[..|bs| - 1], level) + HeadingText(bs[|bs| - 1], level)
  }

  function TopBullet(b: Block): nat {
    if b.Bullet? && b.level == 0 then 1 else 0
  }

  /** The number of level-0 bullets. */
  function TopBullets(bs: seq<Block>): nat
    decreases |bs|
  {
    if bs == [] then 0 else TopBullets(bs[..|bs| - 1]) + TopBullet(bs[|bs| - 1])
  }

  lemma {:induction false} HeadingTextsAppend(a: seq<Block>, b: seq<Block>, level: nat)
    ensures HeadingTexts(a + b, level) == HeadingTexts(a, level) + HeadingTexts(b, level)
    decreases |b|
  {
    if b == [] {
      assert a + b == a;
    } else {
      var init := b[..|b| - 1];
      assert (a + b)[..|a + b| - 1] == a + init;
      HeadingTextsAppend(a, init, level);
    }
  }

  lemma {:induction false} TopBulletsAppend(a: seq<Block>, b: seq<Block>)
    ensures TopBullets(a + b) == TopBullets(a) + TopBullets(b)
    decreases |b|
  {
    if b == [] {
      assert a + b == a;
    } else {
      var init := b[..|b| - 1];
      assert (a + b)[..|a + b| - 1] == a + init;
      TopBulletsAppend(a, init);
    }
  }

  lemma {:induction false} HeadingTextsNone(bs: seq<Block>, level: nat)
    requires forall b :: b in bs ==> !(b.Heading? && b.level == level)
    ensures HeadingTexts(bs, level) == []
    decreases |bs|
  {
    if bs != [] {
      var init := bs[..|bs| - 1];
      assert bs == init + [bs[|bs| - 1]];
      HeadingTextsNone(init, level);
    }
  }

  /** A heading of a given level and text occurs exactly when its text is among that level's headings. */
  lemma {:induction false} HeadingTextsIn(bs: seq<Block>, level: nat, text: string)
    ensures Heading(level, text) in bs <==> text in HeadingTexts(bs, level)
    decreases |bs|
  {
    if bs != [] {
      var init := bs[..|bs| - 1];
      assert bs == init + [bs[|bs| - 1]];
      HeadingTextsIn(init, level, text);
    }
  }

  /** What holds of every block of every element holds of every block of the whole. */
  lemma {:induction false} FlatMapAll<T>(xs: seq<T>, f: T -> seq<Block>, P: Block -> bool)
    requires forall x :: x in xs ==> forall b :: b in f(x) ==> P(b)
    ensures forall b :: b in FlatMap(xs, f) ==> P(b)
    decreases |xs|
  {
    if xs != [] {
      var init := xs[..|xs| - 1];
      assert xs == init + [xs[|xs| - 1]];
      FlatMapAll(init, f, P);
    }
  }

  /** When every element yields one block, the blocks line up with the elements. */
  lemma {:induction false} FlatMapSingles<T>(xs: seq<T>, f: T -> seq<Block>)
    requires forall x :: x in xs ==> |f(x)| == 1
    ensures |FlatMap(xs, f)| == |xs|
    ensures forall j :: 0 <= j < |xs| ==> FlatMap(xs, f)[j] == f(xs[j])[0]
    decreases |xs|
  {
    if xs != [] {
      var init := xs[..|xs| - 1];
      assert xs == init + [xs[|xs| - 1]];
      FlatMapSingles(init, f);
    }
  }

  lemma ItemsAreBullets(items: seq<TopicItem>)
    ensures forall b :: b in FlatMap(items, ItemBlocks) ==> b.Bullet?
  {
    forall item | item in items
      ensures forall b :: b in ItemBlocks(item) ==> b.Bullet?
    {
      if item.Obj? && Truthy(item.title) {
        FlatMapAll(OrEmpty(item.details), DetailBullet, (b: Block) => b.Bullet?);
      }
    }
    FlatMapAll(items, ItemBlocks, (b: Block) => b.Bullet?);
  }

  // ---------------------------------------------------------------------
  // Client agenda

  /** Every client agenda opens with the same five blocks; a missing or empty name,
      date, total value or total income reads "N/A" and never renders blank. */
  lemma ClientOpening(d: ClientData)
    ensures |ClientBlocks(d)| >= 5
    ensures ClientBlocks(d)[..5] == [
      Heading(1, (if Truthy(ClientName(d)) then ClientName(d).value else "N/A") + " - Meeting Agenda"),
      Plain("Date: " + (if Truthy(ClientDate(d)) then ClientDate(d).value else "N/A")),
      Heading(2, "Account Summary"),
      Labelled("Total Portfolio Value: ", if Truthy(TotalValue(d)) then TotalValue(d).value else "N/A"),
      Labelled("Total Annual Income: ", if Truthy(TotalIncome(d)) then TotalIncome(d).value else "N/A")]
    ensures ClientBlocks(d)[3].runs[1].text != "" && ClientBlocks(d)[4].runs[1].text != ""
  {
    assert ClientBlocks(d)[..5] == ClientHeader(d);
  }

  /** A heading followed by blocks with no heading of its level contributes just its text. */
  lemma HeadedSection(title: string, body: seq<Block>, level: nat)
    requires forall b :: b in body ==> !(b.Heading? && b.level == level)
    ensures HeadingTexts([Heading(level, title)] + body, level) == [title]
  {
    HeadingTextsNone(body, level);
    HeadingTextsAppend([Heading(level, title)], body, level);
  }

  lemma ClientHeaderHeadings(d: ClientData)
    ensures HeadingTexts(ClientHeader(d), 2) == ["Account Summary"]
  {
    var h := ClientHeader(d);
    assert h == h[..2] + ([h[2]] + h[3..]);
    HeadingTextsNone(h[..2], 2);
    HeadedSection("Account Summary", h[3..], 2);
    HeadingTextsAppend(h[..2], [h[2]] + h[3..], 2);
  }

  lemma AccountSectionHeadings(accounts: seq<Account>)
    ensures HeadingTexts(AccountSection(accounts), 2) == if |accounts| > 0 then ["Account Details"] else []
  {
    if |accounts| > 0 {
      FlatMapAll(accounts, AccountBlocks, (b: Block) => !(b.Heading? && b.level == 2));
      HeadedSection("Account Details", FlatMap(accounts, AccountBlocks), 2);
    }
  }

  lemma TopicSectionHeadings(topics: seq<Topic>)
    ensures HeadingTexts(TopicSection(topics), 2) == if |topics| > 0 then ["Discussion Topics"] else []
  {
    if |topics| > 0 {
      forall t | t in topics
        ensures forall b :: b in TopicBlocks(t) ==> !(b.Heading? && b.level == 2)
      {
        ItemsAreBullets(OrEmpty(t.items));
      }
      FlatMapAll(topics, TopicBlocks, (b: Block) => !(b.Heading? && b.level == 2));
      HeadedSection("Discussion Topics", FlatMap(topics, TopicBlocks), 2);
    }
  }

  /** The level-2 headings of a client agenda, in order: the summary always, the account
      details exactly when there are accounts, the discussion topics exactly when there are topics. */
  lemma ClientSectionOrder(d: ClientData)
    ensures HeadingTexts(ClientBlocks(d), 2) ==
      ["Account Summary"]
      + (if |OrEmpty(d.accounts)| > 0 then ["Account Details"] else [])
      + (if |OrEmpty(d.otherTopics)| > 0 then ["Discussion Topics"] else [])
  {
    var h, a, t := ClientHeader(d), AccountSection(OrEmpty(d.accounts)), TopicSection(OrEmpty(d.otherTopics));
    HeadingTextsAppend(h + a, t, 2);
    HeadingTextsAppend(h, a, 2);
    ClientHeaderHeadings(d);
    AccountSectionHeadings(OrEmpty(d.accounts));
    TopicSectionHeadings(OrEmpty(d.otherTopics));
  }

  /** "Account Details" appears if and only if there are accounts, and
      "Discussion Topics" if and only if there are topics. */
  lemma ClientOptionalSections(d: ClientData)
    ensures Heading(2, "Account Details") in ClientBlocks(d) <==> |OrEmpty(d.accounts)| > 0
    ensures Heading(2, "Discussion Topics") in ClientBlocks(d) <==> |OrEmpty(d.otherTopics)| > 0
  {
    ClientSectionOrder(d);
    HeadingTextsIn(ClientBlocks(d), 2, "Account Details");
    HeadingTextsIn(ClientBlocks(d), 2, "Discussion Topics");
  }

  /** When every element yields five blocks, element `i`'s blocks sit at `[5 * i, 5 * i + 5)`. */
  lemma {:induction false} FlatMapFives<T>(xs: seq<T>, f: T -> seq<Block>)
    requires forall x :: x in xs ==> |f(x)| == 5
    ensures |FlatMap(xs, f)| == 5 * |xs|
    ensures forall i :: 0 <= i < |xs| ==> FlatMap(xs, f)[5 * i .. 5 * i + 5] == f(xs[i])
    decreases |xs|
  {
    if xs != [] {
      var init := xs[..|xs| - 1];
      var last := xs[|xs| - 1];
      assert xs == init + [last];
      FlatMapFives(init, f);
      var front := FlatMap(init, f);
      forall i | 0 <= i < |xs|
        ensures FlatMap(xs, f)[5 * i .. 5 * i + 5] == f(xs[i])
      {
        if i < |init| {
          assert (front + f(last))[5 * i .. 5 * i + 5] == front[5 * i .. 5 * i + 5];
        } else {
          assert (front + f(last))[5 * i .. 5 * i + 5] == f(last);
        }
      }
    }
  }

  /** Each account contributes exactly five blocks, in input order. */
  lemma AccountsLayout(accounts: seq<Account>)
    ensures |FlatMap(accounts, AccountBlocks)| == 5 * |accounts|
    ensures forall i :: 0 <= i < |accounts| ==>
      FlatMap(accounts, AccountBlocks)[5 * i .. 5 * i + 5] == AccountBlocks(accounts[i])
  {
    FlatMapFives(accounts, AccountBlocks);
  }

  /** A string item is one level-0 bullet; an object item with a truthy title is one
      level-0 bullet immediately followed by one level-1 bullet per detail, in order;
      an object item without a title yields nothing. */
  lemma ItemLayout(item: TopicItem)
    ensures item.Str? ==> ItemBlocks(item) == [Bullet(item.text, 0)]
    ensures item.Obj? && !Truthy(item.title) ==> ItemBlocks(item) == []
    ensures item.Obj? && Truthy(item.title) ==>
      var ds := OrEmpty(item.details);
      && |ItemBlocks(item)| == 1 + |ds|
      && ItemBlocks(item)[0] == Bullet(item.title.value, 0)
      && forall j :: 0 <= j < |ds| ==> ItemBlocks(item)[1 + j] == Bullet(ds[j], 1)
  {
    if item.Obj? && Truthy(item.title) {
      FlatMapSingles(OrEmpty(item.details), DetailBullet);
    }
  }

  /** Counts only the items that render: strings and objects with a truthy title. */
  function RenderedItems(items: seq<TopicItem>): nat
    decreases |items|
  {
    if items == [] then 0
    else
      var last := items[|items| - 1];
      RenderedItems(items[..|items| - 1]) + (if last.Str? || Truthy(last.title) then 1 else 0)
  }

  /** There is one level-0 bullet per rendered item; detail bullets are all level 1. */
  lemma {:induction false} ItemsTopBullets(items: seq<TopicItem>)
    ensures TopBullets(FlatMap(items, ItemBlocks)) == RenderedItems(items)
    decreases |items|
  {
    if items != [] {
      var init := items[..|items| - 1];
      var last := items[|items| - 1];
      ItemsTopBullets(init);
      TopBulletsAppend(FlatMap(init, ItemBlocks), ItemBlocks(last));
      if last.Obj? && Truthy(last.title) {
        var ds := OrEmpty(last.details);
        TopBulletsAppend([Bullet(last.title.value, 0)], FlatMap(ds, DetailBullet));
        DetailsNoTopBullets(ds);
      }
    }
  }

  lemma {:induction false} DetailsNoTopBullets(ds: seq<string>)
    ensures TopBullets(FlatMap(ds, DetailBullet)) == 0
    decreases |ds|
  {
    if ds != [] {
      var init := ds[..|ds| - 1];
      DetailsNoTopBullets(init);
      TopBulletsAppend(FlatMap(init, DetailBullet), DetailBullet(ds[|ds| - 1]));
    }
  }

  /** A topic opens with its level-3 heading; the only paragraph in it is the notes
      paragraph, right after the heading, and it is there exactly when the notes are truthy. */
  lemma TopicLayout(t: Topic)
    ensures TopicBlocks(t)[0] == Heading(3, t.title)
    ensures Truthy(t.notes) ==> TopicBlocks(t)[1] == Plain(t.notes.value)
    ensures forall k :: 1 <= k < |TopicBlocks(t)| ==>
      (TopicBlocks(t)[k].Para? <==> k == 1 && Truthy(t.notes))
    ensures forall k :: 1 <= k < |TopicBlocks(t)| ==> !TopicBlocks(t)[k].Heading?
  {
    var items := FlatMap(OrEmpty(t.items), ItemBlocks);
    ItemsAreBullets(OrEmpty(t.items));
    var opening := [Heading(3, t.title)] + NotesBlock(t.notes);
    assert TopicBlocks(t) == opening + items;
    forall k | |opening| <= k < |TopicBlocks(t)|
      ensures TopicBlocks(t)[k].Bullet?
    {
      assert TopicBlocks(t)[k] == items[k - |opening|];
      assert items[k - |opening|] in items;
    }
  }

  // ---------------------------------------------------------------------
  // General agenda

  /** A block list that is empty or opens with a level-2 heading. */
  predicate OpensSection(bs: seq<Block>) {
    bs == [] || (bs[0].Heading? && bs[0].level == 2)
  }

  /** Appending a part that opens with a level-2 heading keeps the third block, when
      there is one, a level-2 heading. */
  lemma ThirdOpensSection(s: seq<Block>, t: seq<Block>)
    requires |s| >= 2 && (|s| > 2 ==> s[2].Heading? && s[2].level == 2)
    requires OpensSection(t)
    ensures |s + t| > 2 ==> (s + t)[2].Heading? && (s + t)[2].level == 2
  {
    if |s| == 2 && t != [] {
      assert (s + t)[2] == t[0];
    }
  }

  /** The first blocks of a general agenda, read off its seven parts. */
  lemma OpeningOfParts(h: seq<Block>, p: seq<Block>, o: seq<Block>, a: seq<Block>,
                       n: seq<Block>, x: seq<Block>, m: seq<Block>)
    requires |h| == 2
    requires p == [] || (|p| == 2 && p[0] == Heading(3, "Participants:"))
    requires OpensSection(o) && OpensSection(a) && OpensSection(n) && OpensSection(x) && OpensSection(m)
    ensures |h + p + o + a + n + x + m| >= 2
    ensures (h + p + o + a + n + x + m)[0] == h[0] && (h + p + o + a + n + x + m)[1] == h[1]
    ensures (|h + p + o + a + n + x + m| > 2 && (h + p + o + a + n + x + m)[2] == Heading(3, "Participants:"))
      <==> p != []
    ensures p != [] ==> (h + p + o + a + n + x + m)[3] == p[1]
  {
    if p == [] {
      assert h + p == h;
      ThirdOpensSection(h + p, o);
      ThirdOpensSection(h + p + o, a);
      ThirdOpensSection(h + p + o + a, n);
      ThirdOpensSection(h + p + o + a + n, x);
      ThirdOpensSection(h + p + o + a + n + x, m);
    }
  }

  /** The title defaults to "Meeting Agenda" and the date to "N/A"; the third block is the
      level-3 "Participants:" heading exactly when there are participants, and it is followed
      by the participants joined with ", ". */
  lemma GeneralOpening(d: GeneralData)
    ensures |GeneralBlocks(d)| >= 2
    ensures GeneralBlocks(d)[0] ==
      Heading(1, if Truthy(MeetingTitle(d)) then MeetingTitle(d).value else "Meeting Agenda")
    ensures GeneralBlocks(d)[1] ==
      Plain("Date: " + (if Truthy(MeetingDate(d)) then MeetingDate(d).value else "N/A"))
    ensures (|GeneralBlocks(d)| > 2 && GeneralBlocks(d)[2] == Heading(3, "Participants:"))
      <==> HasParticipants(MeetingParticipants(d))
    ensures HasParticipants(MeetingParticipants(d)) && MeetingParticipants(d).value.Names? ==>
      GeneralBlocks(d)[3] == Plain(Join(MeetingParticipants(d).value.names, ", "))
  {
    OpeningOfParts(GeneralHeader(d),
      ParticipantsSection(MeetingParticipants(d)),
      ObjectiveSection(ObjectiveSummary(d), ObjectiveDetails(d)),
      AgendaSection(OrEmpty(d.agendaItems)),
      TextSection("Additional Notes", d.additionalNotes),
      ActionSection(ActionItems(d)),
      TextSection("Next Meeting", NextMeeting(d)));
  }

  /** The headings of a concatenation of seven parts are those of the parts, in order. */
  lemma HeadingTextsOfParts(hp: seq<Block>, o: seq<Block>, a: seq<Block>, n: seq<Block>,
                            x: seq<Block>, m: seq<Block>, level: nat)
    ensures HeadingTexts(hp + o + a + n + x + m, level) ==
      HeadingTexts(hp, level) + HeadingTexts(o, level) + HeadingTexts(a, level)
      + HeadingTexts(n, level) + HeadingTexts(x, level) + HeadingTexts(m, level)
  {
    HeadingTextsAppend(hp + o + a + n + x, m, level);
    HeadingTextsAppend(hp + o + a + n, x, level);
    HeadingTextsAppend(hp + o + a, n, level);
    HeadingTextsAppend(hp + o, a, level);
    HeadingTextsAppend(hp, o, level);
  }

  lemma OpeningHeadings(d: GeneralData)
    ensures HeadingTexts(GeneralHeader(d) + ParticipantsSection(MeetingParticipants(d)), 2) == []
  {
    HeadingTextsNone(GeneralHeader(d) + ParticipantsSection(MeetingParticipants(d)), 2);
  }

  lemma ObjectiveSectionHeadings(summary: Option<string>, details: Option<string>)
    ensures HeadingTexts(ObjectiveSection(summary, details), 2) == if Truthy(summary) then ["Meeting Objective"] else []
  {
    if Truthy(summary) {
      HeadedSection("Meeting Objective", [Plain(summary.value)] + NotesBlock(details), 2);
      assert ObjectiveSection(summary, details) == [Heading(2, "Meeting Objective")] + ([Plain(summary.value)] + NotesBlock(details));
    }
  }

  lemma TextSectionHeadings(heading: string, field: Option<string>)
    ensures HeadingTexts(TextSection(heading, field), 2) == if Truthy(field) then [heading] else []
  {
    if Truthy(field) {
      HeadedSection(heading, [Plain(field.value)], 2);
      assert TextSection(heading, field) == [Heading(2, heading)] + [Plain(field.value)];
    }
  }

  lemma AgendaSectionHeadings(items: seq<AgendaItem>)
    ensures HeadingTexts(AgendaSection(items), 2) == if |items| > 0 then ["Agenda Items"] else []
  {
    if |items| > 0 {
      forall item | item in items
        ensures forall b :: b in AgendaItemBlocks(item) ==> !(b.Heading? && b.level == 2)
      {
        FlatMapAll(OrEmpty(item.subItems), SubItemBullet, (b: Block) => b.Bullet?);
      }
      FlatMapAll(items, AgendaItemBlocks, (b: Block) => !(b.Heading? && b.level == 2));
      HeadedSection("Agenda Items", FlatMap(items, AgendaItemBlocks), 2);
    }
  }

  lemma ActionSectionHeadings(actions: seq<ActionItem>)
    ensures HeadingTexts(ActionSection(actions), 2) == if |actions| > 0 then ["Action Items"] else []
  {
    if |actions| > 0 {
      FlatMapAll(actions, ActionBlocks, (b: Block) => !(b.Heading? && b.level == 2));
      HeadedSection("Action Items", FlatMap(actions, ActionBlocks), 2);
    }
  }

  /** The level-2 headings of a general agenda, in their fixed order, each present exactly
      when its field is truthy or its list non-empty. */
  lemma GeneralSectionOrder(d: GeneralData)
    ensures HeadingTexts(GeneralBlocks(d), 2) ==
      (if Truthy(ObjectiveSummary(d)) then ["Meeting Objective"] else [])
      + (if |OrEmpty(d.agendaItems)| > 0 then ["Agenda Items"] else [])
      + (if Truthy(d.additionalNotes) then ["Additional Notes"] else [])
      + (if |ActionItems(d)| > 0 then ["Action Items"] else [])
      + (if Truthy(NextMeeting(d)) then ["Next Meeting"] else [])
  {
    var hp := GeneralHeader(d) + ParticipantsSection(MeetingParticipants(d));
    var o := ObjectiveSection(ObjectiveSummary(d), ObjectiveDetails(d));
    var a := AgendaSection(OrEmpty(d.agendaItems));
    var n := TextSection("Additional Notes", d.additionalNotes);
    var x := ActionSection(ActionItems(d));
    var m := TextSection("Next Meeting", NextMeeting(d));
    assert GeneralBlocks(d) == hp + o + a + n + x + m;
    HeadingTextsOfParts(hp, o, a, n, x, m, 2);
    OpeningHeadings(d);
    ObjectiveSectionHeadings(ObjectiveSummary(d), ObjectiveDetails(d));
    AgendaSectionHeadings(OrEmpty(d.agendaItems));
    TextSectionHeadings("Additional Notes", d.additionalNotes);
    ActionSectionHeadings(ActionItems(d));
    TextSectionHeadings("Next Meeting", NextMeeting(d));
    assert HeadingTexts(hp, 2) + HeadingTexts(o, 2) == HeadingTexts(o, 2);
  }

  /** Objective details alone render nothing: without a summary the output is the same as
      with no objective at all. */
  lemma ObjectiveDetailsNeedSummary(d: GeneralData)
    requires !Truthy(ObjectiveSummary(d))
    ensures GeneralBlocks(d) == GeneralBlocks(d.(objective := None))
  {
  }

  lemma AgendaItemHeadings(item: AgendaItem)
    ensures HeadingTexts(AgendaItemBlocks(item), 3) == [AgendaItemTitle(item)]
  {
    var body := NotesBlock(item.notes) + FlatMap(OrEmpty(item.subItems), SubItemBullet);
    FlatMapAll(OrEmpty(item.subItems), SubItemBullet, (b: Block) => b.Bullet?);
    HeadedSection(AgendaItemTitle(item), body, 3);
    assert AgendaItemBlocks(item) == [Heading(3, AgendaItemTitle(item))] + body;
  }

  /** The strings of the elements, in order. */
  function Texts<T>(xs: seq<T>, g: T -> string): (r: seq<string>)
    ensures |r| == |xs|
    ensures forall i :: 0 <= i < |xs| ==> r[i] == g(xs[i])
    decreases |xs|
  {
    if xs == [] then [] else Texts(xs[..|xs| - 1], g) + [g(xs[|xs| - 1])]
  }

  /** When every element yields exactly one heading of a level, the headings of the whole
      are those of the elements, in input order. */
  lemma {:induction false} HeadingsPointwise<T>(xs: seq<T>, f: T -> seq<Block>, g: T -> string, level: nat)
    requires forall i :: 0 <= i < |xs| ==> HeadingTexts(f(xs[i]), level) == [g(xs[i])]
    ensures HeadingTexts(FlatMap(xs, f), level) == Texts(xs, g)
    decreases |xs|
  {
    if xs != [] {
      var init := xs[..|xs| - 1];
      assert forall i :: 0 <= i < |init| ==> init[i] == xs[i];
      HeadingsPointwise(init, f, g, level);
      HeadingTextsAppend(FlatMap(init, f), f(xs[|xs| - 1]), level);
    }
  }

  /** The agenda-item headings are the items' titles in input order: the section is not
      sorted by `order`. */
  lemma AgendaHeadingsInInputOrder(items: seq<AgendaItem>)
    ensures |HeadingTexts(FlatMap(items, AgendaItemBlocks), 3)| == |items|
    ensures forall i :: 0 <= i < |items| ==>
      HeadingTexts(FlatMap(items, AgendaItemBlocks), 3)[i] == AgendaItemTitle(items[i])
  {
    forall i | 0 <= i < |items|
      ensures HeadingTexts(AgendaItemBlocks(items[i]), 3) == [AgendaItemTitle(items[i])]
    {
      AgendaItemHeadings(items[i]);
    }
    HeadingsPointwise(items, AgendaItemBlocks, AgendaItemTitle, 3);
  }

  /** Changing the `order` fields changes nothing in the output. */
  lemma {:induction false} AgendaIgnoresOrder(items: seq<AgendaItem>, renumbered: seq<AgendaItem>)
    requires |renumbered| == |items|
    requires forall i :: 0 <= i < |items| ==> renumbered[i] == items[i].(order := renumbered[i].order)
    ensures FlatMap(items, AgendaItemBlocks) == FlatMap(renumbered, AgendaItemBlocks)
    decreases |items|
  {
    if items != [] {
      AgendaIgnoresOrder(items[..|items| - 1], renumbered[..|items| - 1]);
    }
  }

  /** The heading of an agenda item is its title, then " (time)" if given, then
      " - presenter" if given; with neither it is exactly the title. */
  lemma AgendaItemTitleParts(item: AgendaItem)
    ensures item.title <= AgendaItemTitle(item)
    ensures !Truthy(item.timeAllocation) && !Truthy(item.presenter) ==> AgendaItemTitle(item) == item.title
    ensures Truthy(item.timeAllocation) && !Truthy(item.presenter) ==>
      AgendaItemTitle(item) == item.title + " (" + item.timeAllocation.value + ")"
    ensures !Truthy(item.timeAllocation) && Truthy(item.presenter) ==>
      AgendaItemTitle(item) == item.title + " - " + item.presenter.value
    ensures Truthy(item.timeAllocation) && Truthy(item.presenter) ==>
      AgendaItemTitle(item) == item.title + " (" + item.timeAllocation.value + ") - " + item.presenter.value
  {
  }

  /** An action bullet is the description, then " (Owner: owner)" if given, then
      " - Due: date" if given; with neither it is exactly the description. */
  lemma ActionTextParts(a: ActionItem)
    ensures a.description <= ActionText(a)
    ensures !Truthy(a.owner) && !Truthy(a.dueDate) ==> ActionText(a) == a.description
    ensures Truthy(a.owner) && !Truthy(a.dueDate) ==>
      ActionText(a) == a.description + " (Owner: " + a.owner.value + ")"
    ensures !Truthy(a.owner) && Truthy(a.dueDate) ==>
      ActionText(a) == a.description + " - Due: " + a.dueDate.value
    ensures Truthy(a.owner) && Truthy(a.dueDate) ==>
      ActionText(a) == a.description + " (Owner: " + a.owner.value + ") - Due: " + a.dueDate.value
  {
  }

  /** The action section holds one level-0 bullet per action item, in input order. */
  lemma ActionBullets(actions: seq<ActionItem>)
    ensures |FlatMap(actions, ActionBlocks)| == |actions|
    ensures forall i :: 0 <= i < |actions| ==> FlatMap(actions, ActionBlocks)[i] == Bullet(ActionText(actions[i]), 0)
  {
    FlatMapSingles(actions, ActionBlocks);
  }
}
