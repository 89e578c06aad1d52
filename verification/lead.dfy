/** The `Lead` record and its two conversions: to the JSON object that the
    store file and the ranking export hold, and back from such an object
    with every absent key defaulted. */
module LeadRecord {
  import opened Wrappers

  /** A parsed JSON value as it occurs in a lead object: a string, an
      integer or `null`. */
  datatype Value = Text(text: string) | Number(number: int) | Null

  /** A parsed JSON object. */
  type Dict = map<string, Value>

  /** An element of a parsed JSON array: an object, or anything else
      (a string, a number, a list, `null`), on which `.get` fails. */
  datatype Element = Object(fields: Dict) | NonObject

  /** One sales contact. `phone` and `email` are `None` when the dialog
      asking for them was cancelled. `score` and the four AI texts are
      written only by the ranking merge. */
  datatype Lead = Lead(
    name: string,
    phone: Option<string>,
    email: Option<string>,
    callNotes: string,
    smsThread: string,
    emailThread: string,
    score: int,
    summary: string,
    generatedEmail: string,
    generatedSms: string,
    generatedCallScript: string)

  const NameKey := "name"
  const PhoneKey := "phone"
  const EmailKey := "email"
  const CallNotesKey := "call_notes"
  const SmsThreadKey := "sms_thread"
  const EmailThreadKey := "email_thread"
  const ScoreKey := "score"
  const SummaryKey := "summary"
  const GeneratedEmailKey := "generated_email"
  const GeneratedSmsKey := "generated_sms"
  const GeneratedCallScriptKey := "generated_call_script"

  /** The eleven keys of a serialized lead. */
  const LeadKeys: set<string> :=
    {NameKey, PhoneKey, EmailKey, CallNotesKey, SmsThreadKey, EmailThreadKey,
     ScoreKey, SummaryKey, GeneratedEmailKey, GeneratedSmsKey, GeneratedCallScriptKey}

  /** What loading reads for each key that is absent: the empty string, or 0 for the score. */
  const Defaults: Dict :=
    map[NameKey := Text(""), PhoneKey := Text(""), EmailKey := Text(""),
        CallNotesKey := Text(""), SmsThreadKey := Text(""), EmailThreadKey := Text(""),
        ScoreKey := Number(0), SummaryKey := Text(""), GeneratedEmailKey := Text(""),
        GeneratedSmsKey := Text(""), GeneratedCallScriptKey := Text("")]

  /** The score and the four AI-provided texts are still at their initial values. */
  predicate Unranked(l: Lead) {
    && l.score == 0
    && l.summary == ""
    && l.generatedEmail == ""
    && l.generatedSms == ""
    && l.generatedCallScript == ""
  }

  /** The fields that identify a contact and record its conversations; no
      ranking touches them. */
  predicate SameContact(a: Lead, b: Lead) {
    && a.name == b.name
    && a.phone == b.phone
    && a.email == b.email
    && a.callNotes == b.callNotes
    && a.smsThread == b.smsThread
    && a.emailThread == b.emailThread
  }

  /** The constructor: the given contact fields, score 0 and no AI texts. */
  function NewLead(name: string, phone: Option<string>, email: Option<string>,
                   callNotes: string, smsThread: string, emailThread: string): (l: Lead)
    ensures Unranked(l)
    ensures l.name == name && l.phone == phone && l.email == email
    ensures l.callNotes == callNotes && l.smsThread == smsThread && l.emailThread == emailThread
  {
    Lead(name, phone, email, callNotes, smsThread, emailThread, 0, "", "", "", "")
  }

  function OptionalText(v: Option<string>): Value {
    match v
    case None => Null
    case Some(t) => Text(t)
  }

  /** The key holds a string when present. */
  predicate TextOrAbsent(d: Dict, k: string) {
    k in d ==> d[k].Text?
  }

  /** The key holds a string or `null` when present. */
  predicate OptionalTextOrAbsent(d: Dict, k: string) {
    k in d ==> d[k].Text? || d[k].Null?
  }

  /** Every key a lead reads holds, when present, the JSON type that
      serialization writes for it. */
  predicate LeadDict(d: Dict) {
    && TextOrAbsent(d, NameKey)
    && OptionalTextOrAbsent(d, PhoneKey)
    && OptionalTextOrAbsent(d, EmailKey)
    && TextOrAbsent(d, CallNotesKey)
    && TextOrAbsent(d, SmsThreadKey)
    && TextOrAbsent(d, EmailThreadKey)
    && (ScoreKey in d ==> d[ScoreKey].Number?)
    && TextOrAbsent(d, SummaryKey)
    && TextOrAbsent(d, GeneratedEmailKey)
    && TextOrAbsent(d, GeneratedSmsKey)
    && TextOrAbsent(d, GeneratedCallScriptKey)
  }

  /** The mapping a lead is serialized to: exactly the eleven keys, each
      with the JSON type loading expects. */
  function ToDict(l: Lead): (d: Dict)
    ensures d.Keys == LeadKeys
    ensures LeadDict(d)
  {
    map[NameKey := Text(l.name),
        PhoneKey := OptionalText(l.phone),
        EmailKey := OptionalText(l.email),
        CallNotesKey := Text(l.callNotes),
        SmsThreadKey := Text(l.smsThread),
        EmailThreadKey := Text(l.emailThread),
        ScoreKey := Number(l.score),
        SummaryKey := Text(l.summary),
        GeneratedEmailKey := Text(l.generatedEmail),
        GeneratedSmsKey := Text(l.generatedSms),
        GeneratedCallScriptKey := Text(l.generatedCallScript)]
  }

  function TextOr(d: Dict, k: string): string
    requires TextOrAbsent(d, k)
  {
    if k in d then d[k].text else ""
  }

  function OptionalTextOr(d: Dict, k: string): Option<string>
    requires OptionalTextOrAbsent(d, k)
  {
    if k !in d then Some("")
    else if d[k].Null? then None
    else Some(d[k].text)
  }

  /** Loading a lead from a mapping: the lead serializes back to the
      defaults overridden by every lead key the mapping holds, so present
      keys are copied unchanged, absent ones read as "" or 0, and keys that
      are not lead fields are ignored. */
  function FromDict(d: Dict): (l: Lead)
    requires LeadDict(d)
    ensures forall k :: k in LeadKeys ==> ToDict(l)[k] == if k in d then d[k] else Defaults[k]
  {
    Lead(TextOr(d, NameKey),
         OptionalTextOr(d, PhoneKey),
         OptionalTextOr(d, EmailKey),
         TextOr(d, CallNotesKey),
         TextOr(d, SmsThreadKey),
         TextOr(d, EmailThreadKey),
         if ScoreKey in d then d[ScoreKey].number else 0,
         TextOr(d, SummaryKey),
         TextOr(d, GeneratedEmailKey),
         TextOr(d, GeneratedSmsKey),
         TextOr(d, GeneratedCallScriptKey))
  }

  /** Two leads with the same serialization are the same lead. */
  lemma ToDictInjective(a: Lead, b: Lead)
    requires ToDict(a) == ToDict(b)
    ensures a == b
  {
    assert ToDict(a)[PhoneKey] == ToDict(b)[PhoneKey];
    assert ToDict(a)[EmailKey] == ToDict(b)[EmailKey];
  }

  /** Serializing a lead and loading it back reproduces all eleven fields. */
  lemma LeadRoundTrip(l: Lead)
    ensures FromDict(ToDict(l)) == l
  {
    var d := ToDict(l);
    assert ToDict(FromDict(d)) == d;
    ToDictInjective(FromDict(d), l);
  }

  /** Loading a complete, well-typed mapping and serializing the lead gives
      the mapping back. */
  lemma DictRoundTrip(d: Dict)
    requires LeadDict(d) && d.Keys == LeadKeys
    ensures ToDict(FromDict(d)) == d
  {
  }

  /** Each absent key loads as the empty string, or 0 for the score; a
      missing phone or email is the empty string, not `None`. The empty
      mapping loads as a lead with empty contact fields that is unranked. */
  lemma FromDictMissingKeys(d: Dict)
    requires LeadDict(d)
    ensures NameKey !in d ==> FromDict(d).name == ""
    ensures PhoneKey !in d ==> FromDict(d).phone == Some("")
    ensures EmailKey !in d ==> FromDict(d).email == Some("")
    ensures CallNotesKey !in d ==> FromDict(d).callNotes == ""
    ensures SmsThreadKey !in d ==> FromDict(d).smsThread == ""
    ensures EmailThreadKey !in d ==> FromDict(d).emailThread == ""
    ensures ScoreKey !in d ==> FromDict(d).score == 0
    ensures SummaryKey !in d ==> FromDict(d).summary == ""
    ensures GeneratedEmailKey !in d ==> FromDict(d).generatedEmail == ""
    ensures GeneratedSmsKey !in d ==> FromDict(d).generatedSms == ""
    ensures GeneratedCallScriptKey !in d ==> FromDict(d).generatedCallScript == ""
    ensures d == map[] ==> FromDict(d) == NewLead("", Some(""), Some(""), "", "", "")
  {
  }
}
