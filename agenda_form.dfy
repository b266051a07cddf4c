/**
 * The agenda form's own state: the uploaded report and the list of talking
 * points, with the handlers that change them, and the name given to the
 * downloaded agenda. Ids that the form draws from the clock are parameters.
 */
module Form {
  import opened Js

  datatype AgendaType = Client | General

  /** The selected file as the browser describes it: name, MIME type, size in bytes. */
  datatype FileInfo = FileInfo(name: string, mimeType: string, size: nat)

  /** A toast notification; `destructive` is the error variant. */
  datatype Toast = Toast(title: string, description: string, destructive: bool)

  /** What the drag library reports at the end of a drag: the source index and,
      unless the point was dropped outside the list, the destination index. */
  datatype DragResult = DragResult(source: nat, destination: Option<nat>)

  const PdfType: string := "application/pdf"
  const MaxUploadBytes: nat := 10 * 1024 * 1024
  const FilenameSuffix: string := "_agenda.docx"

  // ---------------------------------------------------------------------
  // The initial list

  /** The one point the list starts with. */
  function InitialPoint(agendaType: AgendaType): (p: TalkingPoint)
    ensures p.id == "default-point" && p.notes == ""
    ensures p.title == (if agendaType == Client then "Portfolio Review" else "Overview")
  {
    TalkingPoint("default-point", if agendaType == Client then "Portfolio Review" else "Overview", "")
  }

  // ---------------------------------------------------------------------
  // The upload check

  /** A file is kept only when it is a PDF of at most 10 MB. */
  predicate Acceptable(f: FileInfo) {
    f.mimeType == PdfType && f.size <= MaxUploadBytes
  }

  /** The toast that rejects a file, if any: the type is checked before the size. */
  function Rejection(f: FileInfo): (t: Option<Toast>)
    ensures t.None? <==> Acceptable(f)
    ensures t.Some? ==> t.value.destructive
    ensures f.mimeType != PdfType ==> t == Some(Toast("Invalid file type", "Please upload a PDF file.", true))
  {
    if f.mimeType != PdfType then Some(Toast("Invalid file type", "Please upload a PDF file.", true))
    else if f.size > MaxUploadBytes then Some(Toast("File too large", "Please upload a file smaller than 10MB.", true))
    else None
  }

  // ---------------------------------------------------------------------
  // List operations, as `filter`, `map` and `splice` compute them

  /** `points.filter(p => p.id !== id)`. */
  function WithoutId(points: seq<TalkingPoint>, id: string): (r: seq<TalkingPoint>)
    ensures |r| <= |points|
    ensures forall p :: p in r ==> p in points && p.id != id
    decreases |points|
  {
    if points == [] then []
    else
      var rest := WithoutId(points[..|points| - 1], id);
      var last := points[|points| - 1];
      assert forall p :: p in points[..|points| - 1] ==> p in points;
      if last.id == id then rest else rest + [last]
  }

  /** `points.map(p => p.id === id ? {...p, title, notes} : p)`. */
  function Edited(points: seq<TalkingPoint>, id: string, title: string, notes: string): (r: seq<TalkingPoint>)
    ensures |r| == |points|
    ensures forall i :: 0 <= i < |points| ==> r[i].id == points[i].id
    ensures forall i :: 0 <= i < |points| && points[i].id == id ==> r[i] == TalkingPoint(id, title, notes)
    ensures forall i :: 0 <= i < |points| && points[i].id != id ==> r[i] == points[i]
    decreases |points|
  {
    if points == [] then []
    else
      var last := points[|points| - 1];
      Edited(points[..|points| - 1], id, title, notes)
      + [if last.id == id then last.(title := title, notes := notes) else last]
  }

  /** `items.splice(i, 1)`: the list without its element `i`. */
  function RemoveAt<T>(s: seq<T>, i: nat): (r: seq<T>)
    requires i < |s|
    ensures |r| == |s| - 1
    ensures forall k :: 0 <= k < i ==> r[k] == s[k]
    ensures forall k :: i <= k < |r| ==> r[k] == s[k + 1]
    ensures multiset(r) + multiset{s[i]} == multiset(s)
  {
    assert s == s[..i] + [s[i]] + s[i + 1..];
    s[..i] + s[i + 1..]
  }

  /** `items.splice(i, 0, x)`: the list with `x` inserted before element `i`. */
  function InsertAt<T>(s: seq<T>, i: nat, x: T): (r: seq<T>)
    requires i <= |s|
    ensures |r| == |s| + 1
    ensures r[i] == x
    ensures forall k :: 0 <= k < i ==> r[k] == s[k]
    ensures forall k :: i < k < |r| ==> r[k] == s[k - 1]
    ensures multiset(r) == multiset(s) + multiset{x}
  {
    assert s == s[..i] + s[i..];
    s[..i] + [x] + s[i..]
  }

  /** The two splices of a drag: element `from` taken out and put back in at `to`. */
  function Moved<T>(s: seq<T>, from: nat, to: nat): (r: seq<T>)
    requires from < |s| && to < |s|
    ensures |r| == |s|
    ensures r[to] == s[from]
    ensures multiset(r) == multiset(s)
  {
    InsertAt(RemoveAt(s, from), to, s[from])
  }

  // ---------------------------------------------------------------------
  // The download filename

  predicate IsAlnum(c: char) {
    'a' <= c <= 'z' || 'A' <= c <= 'Z' || '0' <= c <= '9'
  }

  /** `s.replace(/[^a-zA-Z0-9]/g, '_')`. */
  function Sanitize(s: string): (r: string)
    ensures |r| == |s|
    ensures forall i :: 0 <= i < |s| ==> r[i] == (if IsAlnum(s[i]) then s[i] else '_')
    decreases |s|
  {
    if s == [] then []
    else
      var c := s[|s| - 1];
      Sanitize(s[..|s| - 1]) + [if IsAlnum(c) then c else '_']
  }

  /** The name the downloaded agenda is saved under. */
  function DownloadFilename(agendaType: AgendaType, clientName: string, meetingTitle: string): string {
    (if agendaType == Client then Sanitize(clientName) else Sanitize(meetingTitle)) + FilenameSuffix
  }

  // ---------------------------------------------------------------------
  // The form state

  class AgendaForm {
    var agendaType: AgendaType
    var file: Option<FileInfo>
    var talkingPoints: seq<TalkingPoint>

    /** No file, and the one initial point. */
    constructor(agendaType: AgendaType)
      ensures this.agendaType == agendaType
      ensures file == None
      ensures talkingPoints == [InitialPoint(agendaType)]
    {
      this.agendaType := agendaType;
      file := None;
      talkingPoints := [TalkingPoint("default-point", if agendaType == Client then "Portfolio Review" else "Overview", "")];
    }

    /** `handleFileChange` on the first selected file, if any: rejects a non-PDF, then a file
        over 10 MB, each with a destructive toast and the stored file untouched; otherwise
        stores the file and confirms with its name. */
    method HandleFileChange(selected: Option<FileInfo>) returns (toast: Option<Toast>)
      modifies this
      ensures selected.None? ==> toast.None? && file == old(file)
      ensures selected.Some? && !Acceptable(selected.value) ==>
        toast == Rejection(selected.value) && file == old(file)
      ensures selected.Some? && Acceptable(selected.value) ==>
        toast == Some(Toast("File uploaded", selected.value.name, false)) && file == selected
      ensures talkingPoints == old(talkingPoints) && agendaType == old(agendaType)
    {
      toast := None;
      if selected.Some? {
        var selectedFile := selected.value;
        if selectedFile.mimeType != PdfType {
          toast := Some(Toast("Invalid file type", "Please upload a PDF file.", true));
          return;
        }
        if selectedFile.size > MaxUploadBytes {
          toast := Some(Toast("File too large", "Please upload a file smaller than 10MB.", true));
          return;
        }
        file := Some(selectedFile);
        toast := Some(Toast("File uploaded", selectedFile.name, false));
      }
    }

    method HandleFileRemove()
      modifies this
      ensures file == None
      ensures talkingPoints == old(talkingPoints) && agendaType == old(agendaType)
    {
      file := None;
    }

    /** `addTalkingPoint(title)` with the new point's id passed in. */
    method AddTalkingPoint(id: string, title: string)
      modifies this
      ensures talkingPoints == old(talkingPoints) + [TalkingPoint(id, title, "")]
      ensures file == old(file) && agendaType == old(agendaType)
    {
      var newPoint := TalkingPoint(id, title, "");
      talkingPoints := talkingPoints + [newPoint];
    }

    method AddCustomTopic(id: string)
      modifies this
      ensures talkingPoints == old(talkingPoints) + [TalkingPoint(id, "Custom Topic", "")]
      ensures file == old(file) && agendaType == old(agendaType)
    {
      AddTalkingPoint(id, "Custom Topic");
    }

    method HandleTalkingPointDelete(id: string)
      modifies this
      ensures talkingPoints == WithoutId(old(talkingPoints), id)
      ensures file == old(file) && agendaType == old(agendaType)
    {
      talkingPoints := WithoutId(talkingPoints, id);
    }

    method HandleTalkingPointEdit(id: string, title: string, notes: string)
      modifies this
      ensures talkingPoints == Edited(old(talkingPoints), id, title, notes)
      ensures file == old(file) && agendaType == old(agendaType)
    {
      talkingPoints := Edited(talkingPoints, id, title, notes);
    }

    /** `onDragEnd`: nothing happens when the point was dropped outside the list or when the
        first point is the one dragged or the one displaced; otherwise the dragged point is
        spliced out of a copy of the list and spliced back in at the destination. The drag
        library reports indices within the list. */
    method OnDragEnd(result: DragResult)
      requires result.source < |talkingPoints|
      requires result.destination.Some? ==> result.destination.value < |talkingPoints|
      modifies this
      ensures result.destination.None? || result.source == 0 || result.destination.value == 0 ==>
        talkingPoints == old(talkingPoints)
      ensures result.destination.Some? && result.source != 0 && result.destination.value != 0 ==>
        talkingPoints == Moved(old(talkingPoints), result.source, result.destination.value)
      ensures file == old(file) && agendaType == old(agendaType)
    {
      if result.destination.None? {
        return;
      }
      if result.source == 0 {
        return;
      }
      if result.destination.value == 0 {
        return;
      }
      var items := talkingPoints;
      var reorderedItem := items[result.source];
      items := items[..result.source] + items[result.source + 1..];
      items := items[..result.destination.value] + [reorderedItem] + items[result.destination.value..];
      talkingPoints := items;
    }
  }

  // ---------------------------------------------------------------------
  // Properties

  /** The file check as the handler applies it: a PDF within the limit is accepted, and
      a file of any other type is refused before its size is looked at. */
  lemma RejectionOrder(f: FileInfo)
    ensures f.mimeType == PdfType && f.size > MaxUploadBytes ==>
      Rejection(f) == Some(Toast("File too large", "Please upload a file smaller than 10MB.", true))
    ensures f.mimeType == PdfType && f.size == MaxUploadBytes ==> Rejection(f).None?
  {
  }

  /** Every point whose id differs is kept. */
  lemma {:induction false} WithoutIdKeeps(points: seq<TalkingPoint>, id: string)
    ensures forall p :: p in points && p.id != id ==> p in WithoutId(points, id)
    decreases |points|
  {
    if points != [] {
      var init := points[..|points| - 1];
      assert points == init + [points[|points| - 1]];
      WithoutIdKeeps(init, id);
    }
  }

  /** Deleting from two lists joined is deleting from each: the kept points keep their order. */
  lemma {:induction false} WithoutIdAppend(a: seq<TalkingPoint>, b: seq<TalkingPoint>, id: string)
    ensures WithoutId(a + b, id) == WithoutId(a, id) + WithoutId(b, id)
    decreases |b|
  {
    if b == [] {
      assert a + b == a;
    } else {
      var init := b[..|b| - 1];
      assert (a + b)[..|a + b| - 1] == a + init;
      WithoutIdAppend(a, init, id);
    }
  }

  /** Deleting an id no point has changes nothing; deleting twice is deleting once. */
  lemma {:induction false} WithoutIdStable(points: seq<TalkingPoint>, id: string)
    ensures (forall p :: p in points ==> p.id != id) ==> WithoutId(points, id) == points
    ensures WithoutId(WithoutId(points, id), id) == WithoutId(points, id)
    decreases |points|
  {
    if points != [] {
      var init := points[..|points| - 1];
      var last := points[|points| - 1];
      assert points == init + [last];
      WithoutIdStable(init, id);
      var rest := WithoutId(init, id);
      if last.id != id {
        WithoutIdAppend(rest, [last], id);
        assert [last][..0] == [];
      }
    }
  }

  /** An edited point keeps its id, so deleting after editing removes the same points as
      deleting alone. */
  lemma {:induction false} EditThenDelete(points: seq<TalkingPoint>, id: string, title: string, notes: string)
    ensures WithoutId(Edited(points, id, title, notes), id) == WithoutId(points, id)
    decreases |points|
  {
    if points != [] {
      var init := points[..|points| - 1];
      var e := Edited(points, id, title, notes);
      assert e[..|e| - 1] == Edited(init, id, title, notes);
      EditThenDelete(init, id, title, notes);
    }
  }

  /** Editing twice with the same values is editing once. */
  lemma EditIdempotent(points: seq<TalkingPoint>, id: string, title: string, notes: string)
    ensures Edited(Edited(points, id, title, notes), id, title, notes) == Edited(points, id, title, notes)
  {
  }

  /** A drag leaves every point in front of both the source and the destination where it
      was; in particular, with both indices at least 1, the first point stays first. */
  lemma MovedKeepsFront<T>(s: seq<T>, from: nat, to: nat)
    requires from < |s| && to < |s|
    ensures forall k :: 0 <= k < from && k < to ==> Moved(s, from, to)[k] == s[k]
    ensures from >= 1 && to >= 1 ==> Moved(s, from, to)[0] == s[0]
  {
  }

  /** Every point of a drag's result, by position: the dragged point at the destination,
      the points between shifted by one towards the source, the rest in place. */
  lemma MovedAt<T>(s: seq<T>, from: nat, to: nat, k: nat)
    requires from < |s| && to < |s| && k < |s|
    ensures Moved(s, from, to)[k] ==
      if k == to then s[from]
      else if from < to && from <= k < to then s[k + 1]
      else if to < from && to < k <= from then s[k - 1]
      else s[k]
  {
  }

  /** Dragging the point back from where it landed restores the list. */
  lemma MovedRoundTrip<T>(s: seq<T>, from: nat, to: nat)
    requires from < |s| && to < |s|
    ensures Moved(Moved(s, from, to), to, from) == s
  {
    var m := Moved(s, from, to);
    forall k | 0 <= k < |s|
      ensures Moved(m, to, from)[k] == s[k]
    {
      MovedAt(m, to, from, k);
      if k == from {
        MovedAt(s, from, to, to);
      } else if to < from && to <= k < from {
        MovedAt(s, from, to, k + 1);
      } else if from < to && from < k <= to {
        MovedAt(s, from, to, k - 1);
      } else {
        MovedAt(s, from, to, k);
      }
    }
  }

  /** Sanitising keeps letters and digits and leaves nothing else: it is idempotent, and the
      identity on a name that is already letters and digits. */
  lemma SanitizeStable(s: string)
    ensures forall i :: 0 <= i < |s| ==> IsAlnum(Sanitize(s)[i]) || Sanitize(s)[i] == '_'
    ensures Sanitize(Sanitize(s)) == Sanitize(s)
    ensures (forall i :: 0 <= i < |s| ==> IsAlnum(s[i])) ==> Sanitize(s) == s
  {
  }

  /** The download name is the sanitised client name or meeting title, as long as the
      original, followed by "_agenda.docx". */
  lemma DownloadFilenameShape(agendaType: AgendaType, clientName: string, meetingTitle: string)
    ensures var name := if agendaType == Client then clientName else meetingTitle;
      var r := DownloadFilename(agendaType, clientName, meetingTitle);
      && |r| == |name| + |FilenameSuffix|
      && r[..|name|] == Sanitize(name)
      && r[|name|..] == FilenameSuffix
  {
    var name := if agendaType == Client then clientName else meetingTitle;
    var r := DownloadFilename(agendaType, clientName, meetingTitle);
    assert r == Sanitize(name) + FilenameSuffix;
  }
}
