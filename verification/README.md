# LeadRank lead store, modelled in Dafny

LeadRank keeps a list of sales leads in a desktop window. Each lead has a
name, phone, email and three conversation threads (call notes, SMS thread,
email thread), plus an AI score, a summary and three pieces of generated copy
(email, SMS, call script). The list is always shown ranked by score, highest
first. An AI ranking response (a JSON object with a `rankings` array)
overwrites the score, summary and copy of the matching leads. Every change
is saved as a JSON array of lead records, and that file is read back at
start-up.

This project models the data side of `appV2.py` as pure functions over
immutable values:

- `LeadRecord` (lead.dfy) holds the `Lead` record, its eleven-key dictionary
  form (`ToDict`, `FromDict`, with `.get` defaults for missing keys) and
  the two round trips between them.
- `Text` (text.dfy) defines Python's `str.strip()` with the exact
  `str.isspace` character set.
- `Ranking` (ranking.dfy) models `list.sort(key=score, reverse=True)` as a
  stable descending insertion sort. The contracts state sortedness, the
  permutation, stability (each score's leads keep their relative order),
  and uniqueness: any sorted, stable permutation is this sort.
- `RankingMerge` (merge.dfy) models the merge loop of the AI response:
  - each entry ranks the first lead with its name;
  - entries are applied in order, so the last entry for a name wins;
  - unmatched entries change nothing;
  - a non-object element aborts the loop and keeps the updates already
    made.
- `LeadStore` (store.dfy) holds the application state: the lead list and
  the current lead index. It models the operations add, delete, import
  thread text, submit AI response, save and load. Each operation returns
  the new state, the message box it shows (`Notice`) and whether it saves.
- `Scenarios` (scenarios.dfy) works through small concrete cases.
- `SeqFacts` (seqs.dfy) and `Wrappers` (wrappers.dfy) are generic helpers.

Dialogs and message boxes become parameters. For example, the name typed
into the add dialog is an `Option<string>`, where `None` means the dialog
was cancelled, and the delete confirmation is a `bool`. Parsed JSON becomes
an `Element`: either an `Object` with a dictionary of values or a
`NonObject`, whose `.get` raises.

The current lead index is kept as written. Re-sorting after an add, an
import or a merge does not move it, so it can come to name a different lead
(`Scenarios.CurrentIndexStaysPut`).

## Model

| member | source | states |
|---|---|---|
| LeadRecord.NewLead | appV2.py:11-22 | a new lead has score 0 and empty summary and generated copy, and keeps the given name, phone, email and threads |
| LeadRecord.ToDict | appV2.py:24-37 | the record has exactly the eleven lead keys, and every value has the type its field stores |
| LeadRecord.FromDict | appV2.py:39-54 | writing the loaded lead back gives, for each of the eleven keys, the stored value if present and the `.get` default ("" or 0) if absent |
| LeadRecord.ToDictInjective | appV2.py:24-37 | distinct leads give distinct records, so no field is lost when saving |
| LeadRecord.LeadRoundTrip | appV2.py:24-54 | loading a saved record gives back the same lead |
| LeadRecord.DictRoundTrip | appV2.py:24-54 | a well-typed record with all eleven keys survives load-then-save unchanged |
| LeadRecord.FromDictMissingKeys | appV2.py:40-54 | each missing key takes its default, and an empty record loads as an unranked lead with empty name, phone, email and threads |
| Text.Strip | appV2.py:189 | the result has no whitespace at either end, is a contiguous slice of the input, and only whitespace is cut from each side |
| Text.StripOfStripped | appV2.py:189 | a string without surrounding whitespace is left unchanged |
| Text.StripIdempotent | appV2.py:189 | stripping twice is the same as stripping once |
| Text.StripPadded | appV2.py:189 | surrounding whitespace added to a string is removed by strip |
| Text.StripUnique | appV2.py:189 | a slice with only whitespace before and after it, and no whitespace at either of its own ends, is the strip result |
| Ranking.Insert | appV2.py:146 | inserting into a sorted list keeps it sorted, adds one element, and the new head is either the inserted lead or the old head |
| Ranking.InsertPermutes | appV2.py:146 | insertion adds exactly the inserted lead to the multiset |
| Ranking.SortByScore | appV2.py:144-147 | the result is ordered by descending score and has the input's length |
| Ranking.SortPermutes | appV2.py:146 | sorting is a permutation: the multiset of leads is unchanged |
| Ranking.InsertScoreClass | appV2.py:146 | the inserted lead comes first among the leads of its score, and the other score classes are unchanged |
| Ranking.SortStable | appV2.py:146 | for every score, the leads with that score appear in the same relative order as in the input |
| Ranking.SortOfSorted | appV2.py:146 | sorting an already sorted list changes nothing |
| Ranking.SortIdempotent | appV2.py:146 | sorting twice is the same as sorting once |
| Ranking.PlaceOf | appV2.py:124-125 | the number of leading leads scoring at least the given score: leads before it score at least that and the lead at it, if any, scores less; in a sorted list every lead from it on scores less |
| Ranking.SortAppended | appV2.py:124-125 | sorting a sorted list with one lead appended inserts that lead after every lead scoring at least its score, leaving the others in place |
| Ranking.SortedStableUnique | appV2.py:146 | two sorted permutations of the same list that both keep each score's order are equal |
| Ranking.SortCharacterized | appV2.py:146 | the sort is the only sorted, stable permutation of its input |
| RankingMerge.EntryFromDict | appV2.py:276-281 | the entry takes the name only when it is a string, takes ai_score, and takes each text key or "" when absent |
| RankingMerge.FirstNamed | appV2.py:282-283 | the index found is the first lead whose name matches, and none means no lead matches |
| RankingMerge.Rank | appV2.py:284-288 | the ranked lead carries the entry's score, summary and three generated texts, and keeps the name, phone, email and threads |
| RankingMerge.RankOverwrites | appV2.py:284-288 | a later ranking replaces everything an earlier one wrote, and ranking keeps the name, phone, email and threads |
| RankingMerge.ApplyEntry | appV2.py:282-289 | exactly the first lead whose name matches the entry is ranked, and every other lead is unchanged |
| RankingMerge.MergeEntries | appV2.py:275-289 | merging keeps the number of leads and each position's name, phone, email and threads |
| RankingMerge.LastNaming | appV2.py:275-289 | the index found is the last entry with the given name, and none means no entry has it |
| RankingMerge.MergePointwise | appV2.py:275-289 | after merging, a lead that is the first with its name and is named by some entry carries the ranking of the last such entry; every other lead is unchanged |
| RankingMerge.MergeCharacterized | appV2.py:275-289 | the merged list equals the loop-free pointwise description at every position |
| RankingMerge.MergeUnnamedUnchanged | appV2.py:275-289 | a lead whose name no entry carries is unchanged |
| RankingMerge.MergeLaterDuplicateUnchanged | appV2.py:282-289 | a lead with the same name as an earlier lead is never ranked |
| RankingMerge.MergeLastWins | appV2.py:275-289 | when several entries name the same lead, the last one determines its score and copy |
| RankingMerge.MergeSkipsUnmatched | appV2.py:282-289 | an entry whose name matches no lead can be removed from the sequence without changing the result |
| RankingMerge.ApplyCommutes | appV2.py:275-289 | two entries with different names can be applied in either order |
| RankingMerge.MergeSwapDistinct | appV2.py:275-289 | swapping two adjacent entries with different names does not change the merge result |
| RankingMerge.LeadingEntries | appV2.py:275-276 | the entries read are those of the elements before the first non-object, in order |
| RankingMerge.MergeItems | appV2.py:271-289 | the loop completes exactly when every element is an object, and the leads then hold the merge of the entries read up to the first non-object |
| LeadStore.AddLead | appV2.py:117-126 | a cancelled or empty name changes nothing and saves nothing; otherwise the leads gain exactly the new unranked lead and are the stable re-sort of the list with it appended, the current index stays put and the list is saved |
| LeadStore.AddLeadPlacement | appV2.py:117-126 | in a sorted list the new lead goes right after the leads scoring 0 or more, and the others keep their order |
| LeadStore.RemoveAt | appV2.py:137 | the list without the selected position: one lead shorter, that lead removed from the multiset, earlier leads in place and later ones shifted up by one |
| LeadStore.RemoveKeepsSorted | appV2.py:137-138 | removing one lead from a sorted list leaves it sorted |
| LeadStore.DeleteLead | appV2.py:128-142 | no selection shows a notice and changes nothing; declining changes nothing; confirming removes exactly the selected lead, stably re-sorts the rest, clears the current index and saves |
| LeadStore.DeleteLeadInPlace | appV2.py:128-142 | in a sorted list, confirming a delete removes the selected position and keeps everything else in order |
| LeadStore.WithThread | appV2.py:186-190 | the chosen thread reads back the new text, and every other field, including the other two threads, is unchanged |
| LeadStore.ScoreFrameKeepsSorted | appV2.py:190-191 | changing fields other than the score keeps a sorted list sorted |
| LeadStore.ImportText | appV2.py:173-194 | without a current lead a notice is shown and nothing changes; otherwise only that lead's thread becomes the stripped input, the multiset changes by exactly that replacement, the list is the stable re-sort of the edited list and is saved |
| LeadStore.ImportTextInPlace | appV2.py:173-194 | in a sorted list the import replaces the current lead in place, because the score is untouched |
| LeadStore.SubmitResponse | appV2.py:269-295 | malformed text shows a parsing error and changes nothing; if every element is an object, the leads become the stable re-sort of the merge, a sorted permutation of it, and are saved; otherwise the partial merge stays unsorted and unsaved, with a parsing error |
| LeadStore.SaveRecords | appV2.py:300-301 | the saved array holds one object per lead, in list order, each the lead's record |
| LeadStore.LoadRecords | appV2.py:313 | one lead per record, in file order, each the record read by `FromDict` |
| LeadStore.Load | appV2.py:308-316 | no file gives an empty list silently; an unreadable file or a non-object item gives an empty list with a load error; otherwise the leads are the stable re-sort of the records' leads in file order; nothing is saved and no lead is current |
| LeadStore.SaveLoadRoundTrip | appV2.py:300-316 | loading what was saved from a sorted list gives back the same list, with no notice |
| Scenarios.SortExample | appV2.py:146 | scores 5, -3, 5, 0 are ranked 5, 5, 0, -3, with the two 5s in input order |
| Scenarios.MergeExample | appV2.py:275-292 | an entry for Alice ranks Alice at 80 with its copy, moves her ahead of Bob and saves |
| Scenarios.UnmatchedExample | appV2.py:282-289 | a response naming nobody in the list changes no lead and still saves quietly |
| Scenarios.CurrentIndexStaysPut | appV2.py:124-126 | after a lead is added ahead of a negatively scored current lead, the unchanged current index names the new lead |

## Left out

- The tkinter window is not modelled: its layout, the treeview rendering
  (`update_lead_tree`), the detail pane shown by `on_lead_select`, the
  popups, the clipboard and the message boxes. They are display only, or
  they become parameters and the `Notice` value.
- The generated-copy buttons (`gen_email`, `gen_sms`, `gen_call_script`)
  and their popups are not modelled. They only display stored text.
- The ranking request (`ai_rank`) is not modelled. It copies instruction
  text and the leads' records to the clipboard. Those records are the same
  `ToDict` records that `SaveRecords` produces, and the wording of the
  instructions is not modelled.
- JSON text and file I/O are not modelled: parsing, `indent=4` formatting,
  reading and writing `leads_data.json`. The model takes the parsed values
  (`Response`, `StoredFile`) and produces the saved value (`SaveRecords`).
  A failed save only shows a message box, so it is not modelled.
- LeadRecord.FromDict: requires every stored value to have its field's
  type (text, number, or text/null for phone and email). Python would store
  whatever JSON value it finds.
- RankingMerge.EntryFromDict: requires `ai_score` to be present and an
  integer, and the copy keys to be strings when present. appV2.py would
  store `None` or any other JSON value as the score, and an integer score
  cannot hold it. Float scores are not modelled.
- LeadStore.SubmitResponse: requires every object the loop reads, that is
  every object before the first non-object element, to be a readable entry
  (`ReadableResponse`): an integer `ai_score` and text copy. This also
  excludes entries whose values appV2.py never stores, so their type could
  not matter: an entry that names no lead, and an entry lacking `ai_score`
  whose name a later entry ranks again, overwriting the `None`. appV2.py
  skips or overwrites these and completes normally. They are excluded only
  because the entry type holds an integer score. Objects after the first
  non-object element are unconstrained.
- LeadStore.Load: when every element is an object, requires every record
  to hold values of the type a save writes (`ReadableFile`). A file with a
  non-object element is unconstrained. appV2.py stores mistyped values as
  it finds them: for example, a text score in a one-record file loads with
  no error. If such scores make the sort raise, appV2.py keeps the loaded,
  unsorted leads in memory and shows a load error. Neither case is
  modelled.
- LeadStore.ImportText: the popup is modelled as opening and saving in one
  step on the current lead. appV2.py captures the lead object when the
  popup opens. If the list changes while the popup is open, appV2.py
  still writes to that object, and the model does not follow that.
  Closing the popup without saving changes nothing, so it is not modelled.
- LeadStore.DeleteLead: requires the selected index to be in range, as
  the treeview only offers rows that exist.
