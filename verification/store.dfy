/** The lead store and the user actions on it, taken out of the window code:
    each action is a function from the session before it to the session
    after it, together with the message it shows and whether it writes the
    store file. */
module LeadStore {
  import opened Wrappers
  import opened LeadRecord
  import opened Text
  import opened Ranking
  import opened RankingMerge

  /** The in-memory leads and the index of the lead whose details are
      shown (`current_lead_index`). */
  datatype Session = Session(leads: seq<Lead>, current: Option<nat>)

  /** The current index, when there is one, points into the leads. */
  predicate CurrentInRange(s: Session) {
    s.current.Some? ==> s.current.value < |s.leads|
  }

  /** What every completed action leaves behind: leads in ranking order and
      a current index that points into them. */
  predicate Valid(s: Session) {
    SortedByScore(s.leads) && CurrentInRange(s)
  }

  /** The message box an action shows, if any. */
  datatype Notice = Quiet | NoSelection | NoLeadSelected | ParsingError | LoadError

  /** The outcome of an action: the new session, the message shown, and
      whether the store file is rewritten. */
  datatype Step = Step(session: Session, notice: Notice, saves: bool)

  /** An aborted action: nothing changes and nothing is written. */
  function Abort(s: Session, n: Notice): Step {
    Step(s, n, false)
  }

  /** Adding a lead. A name that is `None` (dialog cancelled) or empty
      aborts silently. Otherwise a fresh lead is appended, the leads are
      re-sorted and saved; the current index is not touched. */
  function AddLead(s: Session, name: Option<string>, phone: Option<string>, email: Option<string>): (r: Step)
    ensures name.None? || name == Some("") ==> r == Abort(s, Quiet)
    ensures name.Some? && name != Some("") ==>
      var x := NewLead(name.value, phone, email, "", "", "");
      && r.saves && r.notice == Quiet
      && r.session.current == s.current
      && |r.session.leads| == |s.leads| + 1
      && multiset(r.session.leads) == multiset(s.leads) + multiset{x}
      && SortedByScore(r.session.leads)
      && r.session.leads == SortByScore(s.leads + [x])
    ensures Valid(s) ==> Valid(r.session)
  {
    if name.None? || name.value == "" then Abort(s, Quiet)
    else
      var x := NewLead(name.value, phone, email, "", "", "");
      SortPermutes(s.leads + [x]);
      Step(Session(SortByScore(s.leads + [x]), s.current), Quiet, true)
  }

  /** In a sorted store the new lead, which scores 0, lands after every
      lead scoring 0 or more and before every negatively scored one, and
      all other leads keep their places. */
  lemma AddLeadPlacement(s: Session, name: string, phone: Option<string>, email: Option<string>)
    requires name != "" && SortedByScore(s.leads)
    ensures var k := PlaceOf(s.leads, 0);
      AddLead(s, Some(name), phone, email).session.leads
        == s.leads[..k] + [NewLead(name, phone, email, "", "", "")] + s.leads[k..]
  {
    SortAppended(s.leads, NewLead(name, phone, email, "", "", ""));
  }

  /** Removing one position: the sequence without the element at `i`. */
  function RemoveAt(leads: seq<Lead>, i: nat): (r: seq<Lead>)
    requires i < |leads|
    ensures |r| == |leads| - 1
    ensures multiset(r) == multiset(leads) - multiset{leads[i]}
    ensures forall j :: 0 <= j < |r| ==> r[j] == if j < i then leads[j] else leads[j + 1]
  {
    assert leads == leads[..i] + [leads[i]] + leads[i + 1..];
    leads[..i] + leads[i + 1..]
  }

  /** Removing an element keeps a sorted sequence sorted. */
  lemma RemoveKeepsSorted(leads: seq<Lead>, i: nat)
    requires i < |leads| && SortedByScore(leads)
    ensures SortedByScore(RemoveAt(leads, i))
  {
  }

  /** Deleting the lead selected in the list. With no selection an
      information message is shown and nothing changes; if the user does not
      confirm, nothing changes. Otherwise exactly the selected lead is
      removed, the current index is cleared, and the leads are re-sorted and
      saved. */
  function DeleteLead(s: Session, selection: Option<nat>, confirmed: bool): (r: Step)
    requires selection.Some? ==> selection.value < |s.leads|
    ensures selection.None? ==> r == Abort(s, NoSelection)
    ensures selection.Some? && !confirmed ==> r == Abort(s, Quiet)
    ensures selection.Some? && confirmed ==>
      var i := selection.value;
      && r.saves && r.notice == Quiet
      && r.session.current == None
      && |r.session.leads| == |s.leads| - 1
      && multiset(r.session.leads) == multiset(s.leads) - multiset{s.leads[i]}
      && SortedByScore(r.session.leads)
      && r.session.leads == SortByScore(RemoveAt(s.leads, i))
    ensures Valid(s) ==> Valid(r.session)
  {
    match selection
    case None => Abort(s, NoSelection)
    case Some(i) =>
      if !confirmed then Abort(s, Quiet)
      else
        SortPermutes(RemoveAt(s.leads, i));
        Step(Session(SortByScore(RemoveAt(s.leads, i)), None), Quiet, true)
  }

  /** In a sorted store the re-sort after a delete moves nothing: the
      result is the old sequence with the selected position cut out. */
  lemma DeleteLeadInPlace(s: Session, i: nat)
    requires i < |s.leads| && SortedByScore(s.leads)
    ensures DeleteLead(s, Some(i), true).session.leads == s.leads[..i] + s.leads[i + 1..]
  {
    RemoveKeepsSorted(s.leads, i);
    SortOfSorted(RemoveAt(s.leads, i));
  }

  /** The three conversation texts that can be imported. */
  datatype Thread = CallNotes | SmsThread | EmailThread

  function ThreadText(l: Lead, f: Thread): string {
    match f
    case CallNotes => l.callNotes
    case SmsThread => l.smsThread
    case EmailThread => l.emailThread
  }

  /** The lead with one conversation text replaced: reading it back gives
      the new text, the other two texts read as before, and once the three
      texts are set back the lead is the old one, so no other field changes. */
  function WithThread(l: Lead, f: Thread, t: string): (r: Lead)
    ensures ThreadText(r, f) == t
    ensures forall g :: g != f ==> ThreadText(r, g) == ThreadText(l, g)
    ensures r.(callNotes := l.callNotes, smsThread := l.smsThread, emailThread := l.emailThread) == l
  {
    match f
    case CallNotes => l.(callNotes := t)
    case SmsThread => l.(smsThread := t)
    case EmailThread => l.(emailThread := t)
  }

  /** Changing one lead without changing its score keeps a sorted sequence
      sorted. */
  lemma ScoreFrameKeepsSorted(leads: seq<Lead>, i: nat, u: Lead)
    requires i < |leads| && SortedByScore(leads) && u.score == leads[i].score
    ensures SortedByScore(leads[i := u])
  {
  }

  /** Saving an imported text. Without a current lead an information
      message is shown and nothing changes. Otherwise the chosen text of the
      current lead becomes the stripped input and the leads are re-sorted
      and saved; since the score did not change, a sorted store keeps every
      lead in place. */
  function ImportText(s: Session, f: Thread, input: string): (r: Step)
    requires CurrentInRange(s)
    ensures s.current.None? ==> r == Abort(s, NoLeadSelected)
    ensures s.current.Some? ==>
      var i := s.current.value;
      var u := WithThread(s.leads[i], f, Strip(input));
      && r.saves && r.notice == Quiet
      && r.session.current == s.current
      && multiset(r.session.leads) == multiset(s.leads[i := u])
      && SortedByScore(r.session.leads)
      && r.session.leads == SortByScore(s.leads[i := u])
    ensures Valid(s) ==> Valid(r.session)
  {
    match s.current
    case None => Abort(s, NoLeadSelected)
    case Some(i) =>
      var u := WithThread(s.leads[i], f, Strip(input));
      SortPermutes(s.leads[i := u]);
      Step(Session(SortByScore(s.leads[i := u]), s.current), Quiet, true)
  }

  /** In a sorted store the re-sort after an import moves nothing: only
      the chosen text of the current lead changes, and every other lead and
      every other field stays as it was. */
  lemma ImportTextInPlace(s: Session, f: Thread, input: string)
    requires s.current.Some? && CurrentInRange(s) && SortedByScore(s.leads)
    ensures var i := s.current.value;
      ImportText(s, f, input).session.leads == s.leads[i := WithThread(s.leads[i], f, Strip(input))]
  {
    var i := s.current.value;
    var u := WithThread(s.leads[i], f, Strip(input));
    ScoreFrameKeepsSorted(s.leads, i, u);
    SortOfSorted(s.leads[i := u]);
  }

  /** The pasted AI response after JSON parsing. Text that is not JSON, a
      top-level value that is not an object, or a "rankings" value that
      cannot be iterated (a number, `null`) is `Malformed`. Otherwise
      `items` are what the loop iterates: the elements of the "rankings"
      array, none when the key is absent, and one `NonObject` per character
      of a string or per key of an object. */
  datatype Response = Malformed | Rankings(items: seq<Element>)

  /** Every object the merge reads from the response is an entry. */
  predicate ReadableResponse(resp: Response) {
    resp.Rankings? ==> ReadableEntries(resp.items)
  }

  /** Submitting the AI response. Malformed text shows a parsing error and
      changes nothing. Otherwise the entries are merged in order; if every
      element was an object the leads are re-sorted and saved, and if some
      element was not, a parsing error is shown and the updates made before
      it stay in memory, neither re-sorted nor saved. The number of leads
      and the current index never change. */
  function SubmitResponse(s: Session, resp: Response): (r: Step)
    requires ReadableResponse(resp)
    ensures resp.Malformed? ==> r == Abort(s, ParsingError)
    ensures resp.Rankings? ==>
      var merged := MergeEntries(s.leads, LeadingEntries(resp.items));
      && r.session.current == s.current
      && |r.session.leads| == |s.leads|
      && (AllObjects(resp.items) ==>
            && r.saves && r.notice == Quiet
            && SortedByScore(r.session.leads)
            && multiset(r.session.leads) == multiset(merged)
            && r.session.leads == SortByScore(merged))
      && (!AllObjects(resp.items) ==>
            && !r.saves && r.notice == ParsingError
            && r.session.leads == merged)
    ensures resp.Rankings? && AllObjects(resp.items) ==>
      Valid(r.session) == CurrentInRange(s)
  {
    match resp
    case Malformed => Abort(s, ParsingError)
    case Rankings(items) =>
      var (merged, completed) := MergeItems(s.leads, items);
      SortPermutes(merged);
      if completed then Step(Session(SortByScore(merged), s.current), Quiet, true)
      else Step(Session(merged, s.current), ParsingError, false)
  }

  /** The records `save_data` writes (and `ai_rank` exports): one mapping
      per lead, in store order. */
  function SaveRecords(leads: seq<Lead>): (r: seq<Element>)
    ensures |r| == |leads|
    ensures forall i :: 0 <= i < |r| ==> r[i].Object? && r[i].fields == ToDict(leads[i])
  {
    seq(|leads|, i requires 0 <= i < |leads| => Object(ToDict(leads[i])))
  }

  /** The store file as the loader finds it: missing, unreadable (an I/O
      error, text that is not JSON, or a top-level number or `null`, which
      cannot be iterated), or what the loader iterates: the elements of an
      array, and one `NonObject` per character of a string or per key of an
      object. */
  datatype StoredFile = Absent | Unreadable | Parsed(elements: seq<Element>)

  /** When every element of the file is an object, each is a mapping a
      lead can be loaded from. A file with a non-object element fails to
      load before any mapping is used, so nothing is asked of it. */
  predicate ReadableFile(f: StoredFile) {
    f.Parsed? && AllObjects(f.elements) ==>
      forall i :: 0 <= i < |f.elements| && f.elements[i].Object? ==> LeadDict(f.elements[i].fields)
  }

  /** Every element of the array is an object. */
  predicate AllObjects(elements: seq<Element>) {
    forall i :: 0 <= i < |elements| ==> elements[i].Object?
  }

  /** The leads read from an array of objects, in array order. */
  function LoadRecords(elements: seq<Element>): (r: seq<Lead>)
    requires forall i :: 0 <= i < |elements| ==> elements[i].Object? && LeadDict(elements[i].fields)
    ensures |r| == |elements|
    ensures forall i :: 0 <= i < |r| ==> r[i] == FromDict(elements[i].fields)
  {
    seq(|elements|, i requires 0 <= i < |elements| => FromDict(elements[i].fields))
  }

  /** Loading at start-up. A missing file gives an empty store without a
      message; an unreadable file, or an array element that is not an
      object, gives an empty store and a load error. Otherwise every element
      is loaded and the leads are sorted. Nothing is saved and no lead is
      current. */
  function Load(f: StoredFile): (r: Step)
    requires ReadableFile(f)
    ensures !r.saves && r.session.current == None
    ensures f.Absent? ==> r.session.leads == [] && r.notice == Quiet
    ensures f.Unreadable? ==> r.session.leads == [] && r.notice == LoadError
    ensures f.Parsed? && !AllObjects(f.elements) ==> r.session.leads == [] && r.notice == LoadError
    ensures f.Parsed? && AllObjects(f.elements) ==>
      && r.notice == Quiet
      && SortedByScore(r.session.leads)
      && multiset(r.session.leads) == multiset(LoadRecords(f.elements))
      && r.session.leads == SortByScore(LoadRecords(f.elements))
    ensures Valid(r.session)
  {
    match f
    case Absent => Step(Session([], None), Quiet, false)
    case Unreadable => Step(Session([], None), LoadError, false)
    case Parsed(elements) =>
      if AllObjects(elements) then
        SortPermutes(LoadRecords(elements));
        Step(Session(SortByScore(LoadRecords(elements)), None), Quiet, false)
      else
        Step(Session([], None), LoadError, false)
  }

  /** Saving a store and loading the file back gives the same leads in the
      same order, and no message. */
  lemma SaveLoadRoundTrip(leads: seq<Lead>)
    requires SortedByScore(leads)
    ensures ReadableFile(Parsed(SaveRecords(leads)))
    ensures Load(Parsed(SaveRecords(leads))) == Step(Session(leads, None), Quiet, false)
  {
    var elements := SaveRecords(leads);
    var loaded := LoadRecords(elements);
    forall i | 0 <= i < |leads| ensures loaded[i] == leads[i] {
      LeadRoundTrip(leads[i]);
    }
    assert loaded == leads;
    SortOfSorted(leads);
  }
}
