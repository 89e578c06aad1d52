/** Concrete runs of the store: the ranking order of a small list and a
    ranking response applied to two leads. */
module Scenarios {
  import opened Wrappers
  import opened LeadRecord
  import opened Ranking
  import opened RankingMerge
  import opened LeadStore

  /** Scores [5, -3, 5, 0] sort to [5, 5, 0, -3], the two leads scoring 5
      in their original order. */
  lemma SortExample(a: Lead, b: Lead, c: Lead, d: Lead)
    requires a.score == 5 && b.score == -3 && c.score == 5 && d.score == 0
    ensures SortByScore([a, b, c, d]) == [a, c, d, b]
  {
    SortTail(b, c, d);
    SortFour(a, b, c, d);
    InsertFront(a, c, d, b);
  }

  lemma SortFour(a: Lead, b: Lead, c: Lead, d: Lead)
    ensures SortByScore([a, b, c, d]) == Insert(a, SortByScore([b, c, d]))
  {
    assert [a, b, c, d][1..] == [b, c, d];
  }

  lemma InsertFront(x: Lead, p: Lead, q: Lead, r: Lead)
    requires SortedByScore([p, q, r]) && x.score >= p.score
    ensures Insert(x, [p, q, r]) == [x, p, q, r]
  {
    assert [x, p, q, r][1..] == [p, q, r];
  }

  lemma SortTail(b: Lead, c: Lead, d: Lead)
    requires b.score < d.score <= c.score
    ensures SortByScore([b, c, d]) == [c, d, b]
  {
    assert [b, c, d][1..] == [c, d];
    assert [c, d][1..] == [d];
    assert [d][1..] == [];
    assert SortByScore([c, d]) == [c, d];
    InsertLast(b, c, d);
  }

  lemma InsertLast(b: Lead, c: Lead, d: Lead)
    requires b.score < d.score <= c.score
    ensures Insert(b, [c, d]) == [c, d, b]
  {
    assert [d][1..] == [];
    assert Insert(b, []) == [b];
    assert Insert(b, [d]) == [d] + [b];
    assert [c, d][1..] == [d];
    assert Insert(b, [c, d]) == [c] + [d, b];
  }

  function AliceEntry(): Dict {
    map[NameKey := Text("Alice"), AiScoreKey := Number(80), SummaryKey := Text("s"),
        GeneratedEmailKey := Text("e"), GeneratedSmsKey := Text("m"),
        GeneratedCallScriptKey := Text("c")]
  }

  /** Two unranked leads, Bob listed first; a response ranking Alice at 80
      gives Alice the score and the four texts, leaves Bob as he was, and
      moves Alice ahead of Bob. */
  lemma MergeExample(alice: Lead, bob: Lead)
    requires alice.name == "Alice" && bob.name == "Bob"
    requires Unranked(alice) && Unranked(bob)
    ensures
      var r := SubmitResponse(Session([bob, alice], None), Rankings([Object(AliceEntry())]));
      && r.notice == Quiet && r.saves
      && r.session.leads == [alice.(score := 80, summary := "s", generatedEmail := "e",
                                     generatedSms := "m", generatedCallScript := "c"), bob]
  {
    var e := EntryFromDict(AliceEntry());
    assert e == Entry(Some("Alice"), 80, "s", "e", "m", "c");
    assert LeadingEntries([Object(AliceEntry())]) == [e];
    var ranked := Rank(alice, e);
    MergeAlice(alice, bob, e);
    RankedFirst(bob, ranked);
  }

  lemma MergeAlice(alice: Lead, bob: Lead, e: Entry)
    requires alice.name == "Alice" && bob.name == "Bob" && e.name == Some("Alice")
    ensures MergeEntries([bob, alice], [e]) == [bob, Rank(alice, e)]
  {
    assert FirstNamed([bob, alice], "Alice") == Some(1);
    assert ApplyEntry([bob, alice], e) == [bob, Rank(alice, e)];
    assert [e][1..] == [];
  }

  lemma RankedFirst(bob: Lead, ranked: Lead)
    requires bob.score < ranked.score
    ensures SortByScore([bob, ranked]) == [ranked, bob]
  {
    assert [ranked][1..] == [];
    assert SortByScore([ranked]) == [ranked];
    assert [bob, ranked][1..] == [ranked];
    assert Insert(bob, []) == [bob];
    assert Insert(bob, [ranked]) == [ranked] + [bob];
  }

  function CarolEntry(): Dict {
    map[NameKey := Text("Carol"), AiScoreKey := Number(50)]
  }

  /** A response naming only "Carol", who is not in the store, changes no
      lead and reports nothing. */
  lemma UnmatchedExample(leads: seq<Lead>)
    requires SortedByScore(leads)
    requires forall j :: 0 <= j < |leads| ==> leads[j].name != "Carol"
    ensures
      var r := SubmitResponse(Session(leads, None), Rankings([Object(CarolEntry())]));
      r.notice == Quiet && r.saves && r.session.leads == leads
  {
    var e := EntryFromDict(CarolEntry());
    assert e.name == Some("Carol");
    assert LeadingEntries([Object(CarolEntry())]) == [e];
    var none: seq<Entry> := [];
    MergeSkipsUnmatched(leads, none, e, none);
    assert none + [e] + none == [e];
    assert none + none == none;
    SortOfSorted(leads);
  }

  /** The current index is a position, not a lead: adding a lead re-sorts
      the list without moving the index, so after a lead is added ahead of
      a negatively scored current lead, the index names the new lead. */
  lemma CurrentIndexStaysPut(n: Lead, name: string)
    requires n.score < 0 && name != ""
    ensures
      var r := AddLead(Session([n], Some(0)), Some(name), None, None);
      r.session.current == Some(0) && r.session.leads[0] == NewLead(name, None, None, "", "", "")
  {
    AddLeadPlacement(Session([n], Some(0)), name, None, None);
    assert PlaceOf([n], 0) == 0;
  }
}
