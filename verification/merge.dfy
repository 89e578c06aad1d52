/** Applying the ranking response back onto the leads: each entry of the
    "rankings" array overwrites the score, the summary and the three
    generated texts of the first lead whose name equals the entry's name. */
module RankingMerge {
  import opened Wrappers
  import opened LeadRecord
  import opened SeqFacts

  const AiScoreKey := "ai_score"

  /** One ranking entry as the merge loop reads it. A name that is absent
      or not a string is `None`: it equals no lead's name, so the entry
      matches nothing. Absent texts read as "". */
  datatype Entry = Entry(
    name: Option<string>,
    aiScore: int,
    summary: string,
    generatedEmail: string,
    generatedSms: string,
    generatedCallScript: string)

  /** The entry object holds an integer "ai_score", and a string (or
      nothing) under each text key; the name may be anything. */
  predicate EntryDict(d: Dict) {
    && AiScoreKey in d && d[AiScoreKey].Number?
    && TextOrAbsent(d, SummaryKey)
    && TextOrAbsent(d, GeneratedEmailKey)
    && TextOrAbsent(d, GeneratedSmsKey)
    && TextOrAbsent(d, GeneratedCallScriptKey)
  }

  /** Reads an entry: a string name is kept, anything else names nobody;
      each text is copied when present and "" when absent. */
  function EntryFromDict(d: Dict): (e: Entry)
    requires EntryDict(d)
    ensures e.name.Some? <==> NameKey in d && d[NameKey].Text?
    ensures e.name.Some? ==> e.name.value == d[NameKey].text
    ensures e.aiScore == d[AiScoreKey].number
    ensures SummaryKey in d ==> Text(e.summary) == d[SummaryKey]
    ensures GeneratedEmailKey in d ==> Text(e.generatedEmail) == d[GeneratedEmailKey]
    ensures GeneratedSmsKey in d ==> Text(e.generatedSms) == d[GeneratedSmsKey]
    ensures GeneratedCallScriptKey in d ==> Text(e.generatedCallScript) == d[GeneratedCallScriptKey]
    ensures SummaryKey !in d ==> e.summary == ""
    ensures GeneratedEmailKey !in d ==> e.generatedEmail == ""
    ensures GeneratedSmsKey !in d ==> e.generatedSms == ""
    ensures GeneratedCallScriptKey !in d ==> e.generatedCallScript == ""
  {
    Entry(if NameKey in d && d[NameKey].Text? then Some(d[NameKey].text) else None,
          d[AiScoreKey].number,
          TextOr(d, SummaryKey),
          TextOr(d, GeneratedEmailKey),
          TextOr(d, GeneratedSmsKey),
          TextOr(d, GeneratedCallScriptKey))
  }

  /** The entry's name is exactly `n`. */
  predicate Names(e: Entry, n: string) {
    e.name == Some(n)
  }

  /** No lead before position `j` has the name of the lead at `j`. */
  predicate IsFirstNamed(leads: seq<Lead>, j: int)
    requires 0 <= j < |leads|
  {
    forall i :: 0 <= i < j ==> leads[i].name != leads[j].name
  }

  /** The position of the first lead named `n`, if any. */
  function FirstNamed(leads: seq<Lead>, n: string): (r: Option<nat>)
    ensures r.Some? ==> r.value < |leads| && leads[r.value].name == n && IsFirstNamed(leads, r.value)
    ensures r.None? ==> forall j :: 0 <= j < |leads| ==> leads[j].name != n
  {
    if leads == [] then None
    else if leads[0].name == n then Some(0)
    else
      match FirstNamed(leads[1..], n)
      case None => None
      case Some(i) => Some(i + 1)
  }

  /** A lead with the entry's score, summary and generated texts; its
      contact fields and conversation threads are those of `l`. */
  function Rank(l: Lead, e: Entry): (r: Lead)
    ensures r.score == e.aiScore && r.summary == e.summary
    ensures r.generatedEmail == e.generatedEmail && r.generatedSms == e.generatedSms
    ensures r.generatedCallScript == e.generatedCallScript
    ensures SameContact(l, r)
  {
    l.(score := e.aiScore, summary := e.summary, generatedEmail := e.generatedEmail,
       generatedSms := e.generatedSms, generatedCallScript := e.generatedCallScript)
  }

  /** A later ranking replaces everything an earlier one wrote. */
  lemma RankOverwrites(l: Lead, e1: Entry, e2: Entry)
    ensures Rank(Rank(l, e1), e2) == Rank(l, e2)
    ensures SameContact(l, Rank(l, e2))
  {
  }

  /** One pass of the inner loop: the first lead the entry names is ranked,
      and every other lead, as well as every lead if the entry names none,
      is left as it is. */
  function ApplyEntry(leads: seq<Lead>, e: Entry): (r: seq<Lead>)
    ensures |r| == |leads|
    ensures forall j :: 0 <= j < |leads| ==>
      r[j] == if Names(e, leads[j].name) && IsFirstNamed(leads, j) then Rank(leads[j], e) else leads[j]
  {
    match e.name
    case None => leads
    case Some(n) =>
      match FirstNamed(leads, n)
      case None => leads
      case Some(i) => leads[i := Rank(leads[i], e)]
  }

  /** The names of the leads, position by position, are the same. */
  predicate SameNames(a: seq<Lead>, b: seq<Lead>) {
    |a| == |b| && forall j :: 0 <= j < |a| ==> a[j].name == b[j].name
  }

  /** The outer loop: the entries applied one after another, in array
      order. Contact fields and conversation threads of every lead survive. */
  function MergeEntries(leads: seq<Lead>, es: seq<Entry>): (r: seq<Lead>)
    ensures |r| == |leads|
    ensures forall j :: 0 <= j < |leads| ==> SameContact(leads[j], r[j])
    decreases es
  {
    if es == [] then leads
    else MergeEntries(ApplyEntry(leads, es[0]), es[1..])
  }

  lemma MergeUnfold(leads: seq<Lead>, es: seq<Entry>)
    requires es != []
    ensures MergeEntries(leads, es) == MergeEntries(ApplyEntry(leads, es[0]), es[1..])
  {
  }

  /** The position of the last entry naming `n`, if any. */
  function LastNaming(es: seq<Entry>, n: string): (r: Option<nat>)
    ensures r.Some? ==> r.value < |es| && Names(es[r.value], n)
    ensures r.Some? ==> forall i :: r.value < i < |es| ==> !Names(es[i], n)
    ensures r.None? ==> forall i :: 0 <= i < |es| ==> !Names(es[i], n)
  {
    if es == [] then None
    else
      match LastNaming(es[1..], n)
      case Some(i) => Some(i + 1)
      case None => if Names(es[0], n) then Some(0) else None
  }

  /** What the merge leaves at position `j`, stated without the loop: a lead
      that is the first of its name and is named by some entry carries the
      ranking of the LAST such entry; every other lead is unchanged. */
  function MergedAt(leads: seq<Lead>, es: seq<Entry>, j: int): Lead
    requires 0 <= j < |leads|
  {
    match LastNaming(es, leads[j].name)
    case None => leads[j]
    case Some(i) => if IsFirstNamed(leads, j) then Rank(leads[j], es[i]) else leads[j]
  }

  /** The loop agrees with the loop-free description, position by position. */
  lemma {:induction false} MergePointwise(leads: seq<Lead>, es: seq<Entry>, j: int)
    requires 0 <= j < |leads|
    ensures MergeEntries(leads, es)[j] == MergedAt(leads, es, j)
    decreases es
  {
    if es != [] {
      var l1 := ApplyEntry(leads, es[0]);
      var rest := es[1..];
      var n := leads[j].name;
      assert SameNames(leads, l1);
      assert IsFirstNamed(l1, j) == IsFirstNamed(leads, j);
      MergePointwise(l1, rest, j);
      match LastNaming(rest, n)
      case Some(i) =>
        assert LastNaming(es, n) == Some(i + 1);
        RankOverwrites(leads[j], es[0], rest[i]);
      case None =>
    }
  }

  /** The merge is the loop-free description at every position. */
  lemma MergeCharacterized(leads: seq<Lead>, es: seq<Entry>)
    ensures forall j :: 0 <= j < |leads| ==> MergeEntries(leads, es)[j] == MergedAt(leads, es, j)
  {
    forall j | 0 <= j < |leads| ensures MergeEntries(leads, es)[j] == MergedAt(leads, es, j) {
      MergePointwise(leads, es, j);
    }
  }

  /** A lead whose name no entry carries is unchanged. */
  lemma MergeUnnamedUnchanged(leads: seq<Lead>, es: seq<Entry>, j: int)
    requires 0 <= j < |leads|
    requires forall i :: 0 <= i < |es| ==> !Names(es[i], leads[j].name)
    ensures MergeEntries(leads, es)[j] == leads[j]
  {
    MergePointwise(leads, es, j);
  }

  /** Only the first lead of a name is ever ranked: a later lead with the
      same name is unchanged, because the search stops at the first match. */
  lemma MergeLaterDuplicateUnchanged(leads: seq<Lead>, es: seq<Entry>, j: int)
    requires 0 <= j < |leads| && !IsFirstNamed(leads, j)
    ensures MergeEntries(leads, es)[j] == leads[j]
  {
    MergePointwise(leads, es, j);
  }

  /** When several entries name a lead, the last of them wins. */
  lemma MergeLastWins(leads: seq<Lead>, es: seq<Entry>, j: int, i: int)
    requires 0 <= j < |leads| && IsFirstNamed(leads, j)
    requires 0 <= i < |es| && Names(es[i], leads[j].name)
    requires forall i' :: i < i' < |es| ==> !Names(es[i'], leads[j].name)
    ensures MergeEntries(leads, es)[j] == Rank(leads[j], es[i])
  {
    MergePointwise(leads, es, j);
    LastNamingIs(es, leads[j].name, i);
  }

  lemma LastNamingIs(es: seq<Entry>, n: string, i: int)
    requires 0 <= i < |es| && Names(es[i], n)
    requires forall i' :: i < i' < |es| ==> !Names(es[i'], n)
    ensures LastNaming(es, n) == Some(i)
  {
  }

  /** The entry names no lead. */
  predicate MatchesNone(leads: seq<Lead>, e: Entry) {
    forall j :: 0 <= j < |leads| ==> !Names(e, leads[j].name)
  }

  /** An entry that names no lead has no effect, wherever it stands. */
  lemma {:induction false} MergeSkipsUnmatched(leads: seq<Lead>, es1: seq<Entry>, e: Entry, es2: seq<Entry>)
    requires MatchesNone(leads, e)
    ensures MergeEntries(leads, es1 + [e] + es2) == MergeEntries(leads, es1 + es2)
    decreases es1
  {
    if es1 == [] {
      assert es1 + [e] + es2 == [e] + es2;
      assert es1 + es2 == es2;
      SkipFirstUnmatched(leads, e, es2);
    } else {
      var l1 := ApplyEntry(leads, es1[0]);
      UnmatchedStaysUnmatched(leads, es1[0], e);
      MergeSkipsUnmatched(l1, es1[1..], e, es2);
      ConsOfConcat(es1, [e], es2);
      MergeUnfold(leads, es1 + [e] + es2);
      ConsOfAppend(es1, es2);
      MergeUnfold(leads, es1 + es2);
    }
  }

  lemma SkipFirstUnmatched(leads: seq<Lead>, e: Entry, es: seq<Entry>)
    requires MatchesNone(leads, e)
    ensures MergeEntries(leads, [e] + es) == MergeEntries(leads, es)
  {
    assert ApplyEntry(leads, e) == leads;
    assert ([e] + es)[1..] == es;
  }

  lemma UnmatchedStaysUnmatched(leads: seq<Lead>, e0: Entry, e: Entry)
    requires MatchesNone(leads, e)
    ensures MatchesNone(ApplyEntry(leads, e0), e)
  {
    assert SameNames(leads, ApplyEntry(leads, e0));
  }

  /** Entries for two different names commute. */
  lemma ApplyCommutes(leads: seq<Lead>, e1: Entry, e2: Entry)
    requires e1.name != e2.name
    ensures ApplyEntry(ApplyEntry(leads, e2), e1) == ApplyEntry(ApplyEntry(leads, e1), e2)
  {
    var a := ApplyEntry(ApplyEntry(leads, e2), e1);
    var b := ApplyEntry(ApplyEntry(leads, e1), e2);
    assert SameNames(leads, ApplyEntry(leads, e1));
    assert SameNames(leads, ApplyEntry(leads, e2));
    forall j | 0 <= j < |leads| ensures a[j] == b[j] {
      assert IsFirstNamed(ApplyEntry(leads, e1), j) == IsFirstNamed(leads, j);
      assert IsFirstNamed(ApplyEntry(leads, e2), j) == IsFirstNamed(leads, j);
    }
  }

  /** Apart from entries that share a name, the order of the entries does
      not matter: swapping two neighbours with different names gives the
      same leads. */
  lemma {:induction false} MergeSwapDistinct(leads: seq<Lead>, es1: seq<Entry>, e1: Entry, e2: Entry, es2: seq<Entry>)
    requires e1.name != e2.name
    ensures MergeEntries(leads, es1 + [e1, e2] + es2) == MergeEntries(leads, es1 + [e2, e1] + es2)
    decreases es1
  {
    if es1 == [] {
      assert es1 + [e1, e2] + es2 == [e1, e2] + es2;
      assert es1 + [e2, e1] + es2 == [e2, e1] + es2;
      MergeTwo(leads, e1, e2, es2);
      MergeTwo(leads, e2, e1, es2);
      ApplyCommutes(leads, e1, e2);
    } else {
      var l1 := ApplyEntry(leads, es1[0]);
      MergeSwapDistinct(l1, es1[1..], e1, e2, es2);
      ConsOfConcat(es1, [e1, e2], es2);
      MergeUnfold(leads, es1 + [e1, e2] + es2);
      ConsOfConcat(es1, [e2, e1], es2);
      MergeUnfold(leads, es1 + [e2, e1] + es2);
    }
  }

  lemma MergeTwo(leads: seq<Lead>, e1: Entry, e2: Entry, es: seq<Entry>)
    ensures MergeEntries(leads, [e1, e2] + es) == MergeEntries(ApplyEntry(ApplyEntry(leads, e1), e2), es)
  {
    assert ([e1, e2] + es)[1..] == [e2] + es;
    assert ([e2] + es)[1..] == es;
  }

  /** Every object the loop reads, that is every object before the first
      element that is not an object, is an entry. Objects after that element
      are never read, so nothing is asked of them. */
  predicate ReadableEntries(items: seq<Element>)
    decreases items
  {
    items != [] && items[0].Object? ==> EntryDict(items[0].fields) && ReadableEntries(items[1..])
  }

  /** The entries the loop gets through: those read from the objects before
      the first element that is not an object. */
  function LeadingEntries(items: seq<Element>): (es: seq<Entry>)
    requires ReadableEntries(items)
    ensures |es| <= |items|
    ensures forall i :: 0 <= i < |es| ==>
      items[i].Object? && EntryDict(items[i].fields) && es[i] == EntryFromDict(items[i].fields)
    ensures |es| < |items| ==> items[|es|].NonObject?
  {
    if items == [] || items[0].NonObject? then []
    else [EntryFromDict(items[0].fields)] + LeadingEntries(items[1..])
  }

  /** The loop of `submit_ai_response` over the parsed "rankings" array. An element that
      is not an object makes `.get` raise: the loop stops there, the updates
      already made stay, and the second component is false. */
  function MergeItems(leads: seq<Lead>, items: seq<Element>): (r: (seq<Lead>, bool))
    requires ReadableEntries(items)
    ensures r.1 <==> forall i :: 0 <= i < |items| ==> items[i].Object?
    ensures r.0 == MergeEntries(leads, LeadingEntries(items))
    decreases items
  {
    if items == [] then (leads, true)
    else match items[0]
      case NonObject => (leads, false)
      case Object(d) =>
        var e := EntryFromDict(d);
        var rest := MergeItems(ApplyEntry(leads, e), items[1..]);
        assert ([e] + LeadingEntries(items[1..]))[1..] == LeadingEntries(items[1..]);
        rest
  }
}
