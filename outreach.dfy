/**
 * The outreach helpers of the screener (components/ICPScreener.jsx): the business-email
 * lookup in an enriched profile (2336-2362), the leads pushed to a sequencing campaign
 * (2656-2687) and the step number of a new campaign message (2595).
 */
module Outreach {
  import opened Wrappers
  import opened Text
  import opened Company
  import Integers

  // ------------------------------------------------------------ business email

  /** A profile's `business_email`: absent, one value, or an array of values. */
  datatype EmailField = Unset | Single(v: Value) | Several(vs: seq<Value>)

  /** An employer's `business_emails`: `Object.keys` of the object, `None` when absent or not an object. */
  datatype Employer = Employer(businessEmails: Option<seq<string>>)

  datatype Profile = Profile(businessEmail: EmailField, current: seq<Employer>, past: seq<Employer>)

  /** Path 1: the string `business_email`, or its first element when it is an array. */
  function TopEmail(f: EmailField): string {
    match f
    case Unset => ""
    case Single(v) => if v.Str? && v.s != "" then v.s else ""
    case Several(vs) => if |vs| > 0 && vs[0].Str? && vs[0].s != "" then vs[0].s else ""
  }

  predicate HasKeys(e: Employer) {
    e.businessEmails.Some? && |e.businessEmails.value| > 0
  }

  /** The first employer from `k` on whose `business_emails` has a key. */
  function FirstWithKeys(emps: seq<Employer>, k: nat): (r: Option<nat>)
    requires k <= |emps|
    ensures r.Some? ==> k <= r.value < |emps| && HasKeys(emps[r.value])
    ensures forall j :: k <= j < |emps| && (r.None? || j < r.value) ==> !HasKeys(emps[j])
    decreases |emps| - k
  {
    if k == |emps| then None
    else if HasKeys(emps[k]) then Some(k)
    else FirstWithKeys(emps, k + 1)
  }

  /** Paths 2 and 3: the first key of the first employer that has one, else ''. */
  function FirstKey(emps: seq<Employer>): string {
    match FirstWithKeys(emps, 0)
    case None => ""
    case Some(k) => emps[k].businessEmails.value[0]
  }

  /** The email found: top level first, then current employers, then past employers. */
  function BusinessEmail(p: Profile): string {
    var top := TopEmail(p.businessEmail);
    if top != "" then top
    else
      var fromCurrent := FirstKey(p.current);
      if fromCurrent != "" then fromCurrent else FirstKey(p.past)
  }

  /** One employer loop: stop at the first employer with a key. */
  method FirstKeyOf(emps: seq<Employer>) returns (email: string)
    ensures email == FirstKey(emps)
  {
    email := "";
    var k := 0;
    while k < |emps|
      invariant k <= |emps| && FirstWithKeys(emps, k) == FirstWithKeys(emps, 0)
    {
      var keys := emps[k].businessEmails;
      if keys.Some? && |keys.value| > 0 {
        email := keys.value[0];
        break;
      }
      k := k + 1;
    }
  }

  /** The lookup of the enrichment handler. */
  method ExtractEmail(p: Profile) returns (email: string)
    ensures email == BusinessEmail(p)
  {
    email := "";
    match p.businessEmail {
      case Unset =>
      case Single(v) =>
        if v.Str? && v.s != "" { email := v.s; }
      case Several(vs) =>
        if |vs| > 0 && vs[0].Str? && vs[0].s != "" { email := vs[0].s; }
    }
    if email == "" {
      email := FirstKeyOf(p.current);
    }
    if email == "" {
      email := FirstKeyOf(p.past);
    }
  }

  /**
   * The email comes from the first source that has one, in the order top level, current
   * employers, past employers; within a list, from the first employer with a key.
   */
  lemma EmailPriority(p: Profile)
    ensures TopEmail(p.businessEmail) != "" ==> BusinessEmail(p) == TopEmail(p.businessEmail)
    ensures TopEmail(p.businessEmail) == "" && FirstKey(p.current) != "" ==> BusinessEmail(p) == FirstKey(p.current)
    ensures TopEmail(p.businessEmail) == "" && FirstKey(p.current) == "" ==> BusinessEmail(p) == FirstKey(p.past)
  {
  }

  /** The key found is the first key of an employer with keys, and no earlier employer has one. */
  lemma FirstKeyIsFirst(emps: seq<Employer>)
    ensures FirstWithKeys(emps, 0).None? <==> forall j :: 0 <= j < |emps| ==> !HasKeys(emps[j])
    ensures FirstWithKeys(emps, 0).None? ==> FirstKey(emps) == ""
    ensures forall k :: 0 <= k < |emps| && HasKeys(emps[k]) && (forall j :: 0 <= j < k ==> !HasKeys(emps[j])) ==>
      FirstKey(emps) == emps[k].businessEmails.value[0]
  {
  }

  // ------------------------------------------------------------ names

  /** The index of the first white-space character, `|s|` when there is none. */
  function FirstSpace(s: string): (i: nat)
    ensures i <= |s| && (i == |s| || IsSpace(s[i]))
    ensures forall m :: 0 <= m < i ==> !IsSpace(s[m])
  {
    if s == [] || IsSpace(s[0]) then 0 else 1 + FirstSpace(s[1..])
  }

  /** `s.split(/\s+/)`. */
  function SplitSpaces(s: string): (r: seq<string>)
    ensures |r| >= 1
    decreases |s|
  {
    var i := FirstSpace(s);
    if i == |s| then [s] else [s[..i]] + SplitSpaces(s[i + SpaceRun(s, i)..])
  }

  /** `(ct.name || '').trim().split(/\s+/)`. */
  function NameParts(name: string): seq<string> {
    SplitSpaces(Trim(name))
  }

  /** `nameParts[0] || ''`. */
  function FirstName(name: string): string {
    NameParts(name)[0]
  }

  /** `nameParts.slice(1).join(' ') || ''`. */
  function LastName(name: string): string {
    Join(NameParts(name)[1..], " ")
  }

  /** A word for the name split: not empty and without white space. */
  predicate IsWord(w: string) {
    w != [] && forall m :: 0 <= m < |w| ==> !IsSpace(w[m])
  }

  lemma {:induction false} SplitWords(ws: seq<string>)
    requires |ws| >= 1 && forall k :: 0 <= k < |ws| ==> IsWord(ws[k])
    ensures SplitSpaces(Join(ws, " ")) == ws
    decreases |ws|
  {
    if |ws| == 1 {
      assert FirstSpace(ws[0]) == |ws[0]|;
    } else {
      var w, rest := ws[0], Join(ws[1..], " ");
      assert Join(ws, " ") == w + " " + rest;
      JoinStartsWithWord(ws[1..]);
      SplitSpacesStep(w, rest);
      SplitWords(ws[1..]);
      assert ws == [w] + ws[1..];
    }
  }

  /** A word, one space and text that starts with no space split at that space. */
  lemma SplitSpacesStep(w: string, rest: string)
    requires IsWord(w) && rest != [] && !IsSpace(rest[0])
    ensures SplitSpaces(w + " " + rest) == [w] + SplitSpaces(rest)
  {
    var s := w + " " + rest;
    forall m | 0 <= m < |w| ensures !IsSpace(s[m]) { assert s[m] == w[m]; }
    assert FirstSpace(s) == |w| by { FirstSpaceAt(s, |w|); }
    assert s[|w| + 1] == rest[0];
    SpaceRunExact(s, |w|, |w| + 1);
    assert s[|w| + 1..] == rest;
    assert s[..|w|] == w;
  }

  lemma FirstSpaceAt(s: string, i: nat)
    requires i < |s| && IsSpace(s[i]) && forall m :: 0 <= m < i ==> !IsSpace(s[m])
    ensures FirstSpace(s) == i
  {
  }

  /** Joined words start with the first word's first character and end with the last word's last one. */
  lemma {:induction false} JoinStartsWithWord(ws: seq<string>)
    requires |ws| >= 1 && forall k :: 0 <= k < |ws| ==> IsWord(ws[k])
    ensures ws[0] != [] && ws[|ws| - 1] != [] && Join(ws, " ") != []
    ensures Join(ws, " ")[0] == ws[0][0]
    ensures Join(ws, " ")[|Join(ws, " ")| - 1] == ws[|ws| - 1][|ws[|ws| - 1]| - 1]
    decreases |ws|
  {
    if |ws| > 1 {
      JoinStartsWithWord(ws[1..]);
    }
  }

  /** A name written as words separated by single spaces splits into its first word and the rest. */
  lemma NameSplit(ws: seq<string>)
    requires |ws| >= 1 && forall k :: 0 <= k < |ws| ==> IsWord(ws[k])
    ensures FirstName(Join(ws, " ")) == ws[0]
    ensures LastName(Join(ws, " ")) == Join(ws[1..], " ")
  {
    var s := Join(ws, " ");
    JoinStartsWithWord(ws);
    assert !IsSpace(ws[0][0]);
    assert !IsSpace(ws[|ws| - 1][|ws[|ws| - 1]| - 1]);
    TrimOfTrimmed(s);
    SplitWords(ws);
  }

  /** A name without white space inside is all first name. */
  lemma OneWordName(w: string)
    requires IsWord(w)
    ensures FirstName(w) == w && LastName(w) == ""
  {
    NameSplit([w]);
  }

  // ------------------------------------------------------------ campaign messages

  /** A campaign message; a missing subject or body is ''. */
  datatype Message = Message(channel: string, step: int, subject: string, body: string)

  /** `campaignMessages.filter(m => m.channel === 'email')`. */
  function EmailOnly(ms: seq<Message>): (r: seq<Message>)
    ensures forall m :: m in r <==> m in ms && m.channel == "email"
    ensures multiset(r) <= multiset(ms)
    decreases |ms|
  {
    if ms == [] then []
    else
      assert ms == ms[..|ms| - 1] + [ms[|ms| - 1]];
      EmailOnly(ms[..|ms| - 1]) + (if ms[|ms| - 1].channel == "email" then [ms[|ms| - 1]] else [])
  }

  predicate SortedBySteps(ms: seq<Message>) {
    forall i, j :: 0 <= i < j < |ms| ==> ms[i].step <= ms[j].step
  }

  /** Inserts `m` before the first message with a greater step: after the ones with an equal step, as a stable sort places a later element. */
  function Insert(m: Message, s: seq<Message>): (r: seq<Message>)
    ensures multiset(r) == multiset(s) + multiset{m}
    decreases |s|
  {
    if s == [] then [m]
    else if m.step < s[0].step then [m] + s
    else
      assert s == [s[0]] + s[1..];
      [s[0]] + Insert(m, s[1..])
  }

  lemma {:induction false} InsertSorted(m: Message, s: seq<Message>)
    requires SortedBySteps(s)
    ensures SortedBySteps(Insert(m, s))
    decreases |s|
  {
    if s != [] && m.step >= s[0].step {
      var tail := s[1..];
      InsertSorted(m, tail);
      var r := Insert(m, tail);
      forall i | 0 <= i < |r| ensures s[0].step <= r[i].step {
        assert r[i] in multiset(tail) + multiset{m};
        if r[i] != m { assert r[i] in tail; }
      }
    }
  }

  /** `.sort((a, b) => a.step_number - b.step_number)`: sorted by step, the same messages. */
  function SortBySteps(ms: seq<Message>): (r: seq<Message>)
    ensures SortedBySteps(r) && multiset(r) == multiset(ms)
    decreases |ms|
  {
    if ms == [] then []
    else
      var init := ms[..|ms| - 1];
      assert ms == init + [ms[|ms| - 1]];
      InsertSorted(ms[|ms| - 1], SortBySteps(init));
      Insert(ms[|ms| - 1], SortBySteps(init))
  }

  /** The email messages in step order. */
  function EmailSequence(ms: seq<Message>): seq<Message> {
    SortBySteps(EmailOnly(ms))
  }

  /** The email sequence holds exactly the email messages, in non-decreasing step order. */
  lemma EmailSequenceExact(ms: seq<Message>)
    ensures SortedBySteps(EmailSequence(ms))
    ensures multiset(EmailSequence(ms)) == multiset(EmailOnly(ms))
    ensures forall m :: m in EmailSequence(ms) <==> m in ms && m.channel == "email"
  {
    var e := EmailOnly(ms);
    assert forall m :: m in EmailSequence(ms) <==> m in multiset(e);
  }

  // ------------------------------------------------------------ leads

  datatype Part = SubjectPart | BodyPart

  /** The members of a lead: the fixed ones and the numbered template variables. */
  datatype LeadKey =
    | EmailKey | FirstNameKey | LastNameKey | CompanyNameKey | TitleKey | LinkedinUrlKey
    | Template(n: nat, part: Part)

  /** The member name a key stands for. */
  function KeyName(k: LeadKey): string {
    match k
    case EmailKey => "email"
    case FirstNameKey => "first_name"
    case LastNameKey => "last_name"
    case CompanyNameKey => "company_name"
    case TitleKey => "title"
    case LinkedinUrlKey => "linkedin_url"
    case Template(n, part) => "email_" + Integers.Decimal(n) + (if part == SubjectPart then "_subject" else "_body")
  }

  /** No two template variables share a member name, nor does one share a fixed member's name. */
  lemma TemplateNamesDistinct(a: LeadKey, b: LeadKey)
    requires a.Template? && a != b
    ensures KeyName(a) != KeyName(b)
  {
    var da := Integers.Decimal(a.n);
    assert |da| >= 1;
    var x := KeyName(a);
    assert x[..6] == "email_";
    if b.Template? {
      var db := Integers.Decimal(b.n);
      var y := KeyName(b);
      if a.part != b.part {
        assert x[|x| - 1] != y[|y| - 1];
      } else {
        var suffix := if a.part == SubjectPart then "_subject" else "_body";
        assert x == "email_" + da + suffix && y == "email_" + db + suffix;
        if da == db {
          Integers.DecimalInjective(a.n, b.n);
        } else if |da| != |db| {
          assert |x| != |y|;
        } else {
          assert da == x[6..6 + |da|] && db == y[6..6 + |db|];
        }
      }
    } else {
      FixedNameNotTemplate(b);
    }
  }

  /** The fixed member names do not start with `email_`. */
  lemma FixedNameNotTemplate(b: LeadKey)
    requires !b.Template?
    ensures |KeyName(b)| < 6 || KeyName(b)[..6] != "email_"
  {
    var y := KeyName(b);
    if b != EmailKey {
      assert y[0] != 'e';
      assert |y| < 6 || y[..6][0] == y[0];
    }
  }

  /** `emailVariables` after the first `n` messages of the sequence. */
  function Variables(ms: seq<Message>): map<LeadKey, string>
    decreases |ms|
  {
    if ms == [] then map[]
    else
      var last := ms[|ms| - 1];
      Variables(ms[..|ms| - 1])[Template(|ms|, SubjectPart) := last.subject][Template(|ms|, BodyPart) := last.body]
  }

  /** The `forEach` that fills `emailVariables`. */
  method BuildVariables(ms: seq<Message>) returns (vars: map<LeadKey, string>)
    ensures vars == Variables(ms)
  {
    vars := map[];
    for idx := 0 to |ms|
      invariant vars == Variables(ms[..idx])
    {
      assert ms[..idx + 1][..idx] == ms[..idx];
      var num := idx + 1;
      vars := vars[Template(num, SubjectPart) := ms[idx].subject];
      vars := vars[Template(num, BodyPart) := ms[idx].body];
    }
    assert ms[..|ms|] == ms;
  }

  /** Message `n` of the sequence fills variables `email_n_subject` and `email_n_body`, and nothing else is set. */
  lemma {:induction false} VariablesExact(ms: seq<Message>)
    ensures forall k :: k in Variables(ms) <==> k.Template? && 1 <= k.n <= |ms|
    ensures forall n :: 1 <= n <= |ms| ==> Variables(ms)[Template(n, SubjectPart)] == ms[n - 1].subject
    ensures forall n :: 1 <= n <= |ms| ==> Variables(ms)[Template(n, BodyPart)] == ms[n - 1].body
    decreases |ms|
  {
    if ms != [] {
      var init := ms[..|ms| - 1];
      VariablesExact(init);
      forall j | 0 <= j < |init| ensures init[j] == ms[j] { }
      var v, v0 := Variables(ms), Variables(init);
      forall k ensures k in v <==> k.Template? && 1 <= k.n <= |ms| {
        if k.Template? && k.n == |ms| {
          match k.part {
            case SubjectPart => assert k == Template(|ms|, SubjectPart);
            case BodyPart => assert k == Template(|ms|, BodyPart);
          }
        } else {
          assert k in v <==> k in v0;
        }
      }
    }
  }

  /** A campaign contact; missing members are ''. */
  datatype Contact = Contact(name: string, businessEmail: string, companyName: string, title: string, linkedin: string)

  type Lead = map<LeadKey, string>

  /** The members a lead takes from its contact. */
  function ContactMembers(ct: Contact): map<LeadKey, string> {
    map[EmailKey := ct.businessEmail, FirstNameKey := FirstName(ct.name), LastNameKey := LastName(ct.name),
        CompanyNameKey := ct.companyName, TitleKey := ct.title, LinkedinUrlKey := ct.linkedin]
  }

  /** A lead: the contact's members, then the template variables spread over them. */
  function LeadOf(ct: Contact, vars: map<LeadKey, string>): Lead {
    ContactMembers(ct) + vars
  }

  /** Spreading template variables over fixed members keeps both: no member name is shared. */
  lemma SpreadKeepsBoth(fixed: map<LeadKey, string>, vars: map<LeadKey, string>)
    requires forall k :: k in fixed ==> !k.Template?
    requires forall k :: k in vars ==> k.Template?
    ensures forall k :: k in fixed ==> k in fixed + vars && (fixed + vars)[k] == fixed[k]
    ensures forall k :: k in vars ==> k in fixed + vars && (fixed + vars)[k] == vars[k]
    ensures forall k :: k in fixed + vars ==> k in fixed || k in vars
  {
  }

  /** `campaignContacts.map(cc => cc.contacts).filter(ct => ct && ct.business_email)`. */
  function WithEmail(cs: seq<Option<Contact>>): (r: seq<Contact>)
    ensures forall ct :: ct in r <==> Some(ct) in cs && ct.businessEmail != ""
    decreases |cs|
  {
    if cs == [] then []
    else
      var c := cs[|cs| - 1];
      WithEmail(cs[..|cs| - 1]) + (if c.Some? && c.value.businessEmail != "" then [c.value] else [])
  }

  const NoContactsMessage := "No contacts with email addresses found in this campaign."

  /** The leads of a push to the sequencing tool, or the message shown when no contact has an email. */
  function Leads(cs: seq<Option<Contact>>, ms: seq<Message>): (r: Result<seq<Lead>, string>)
    ensures r.Ok? ==> |r.value| == |WithEmail(cs)|
  {
    var contacts := WithEmail(cs);
    if |contacts| == 0 then Err(NoContactsMessage)
    else
      var vars := Variables(EmailSequence(ms));
      Ok(seq(|contacts|, k requires 0 <= k < |contacts| => LeadOf(contacts[k], vars)))
  }

  /** A lead carries its contact's members: the email, the name split into first word and rest, company, title, profile. */
  lemma LeadFields(ct: Contact, seqn: seq<Message>)
    ensures var lead, fixed := LeadOf(ct, Variables(seqn)), ContactMembers(ct);
      forall k :: k in fixed ==> k in lead && lead[k] == fixed[k]
  {
    VariablesExact(seqn);
    SpreadKeepsBoth(ContactMembers(ct), Variables(seqn));
  }

  /** A lead carries the `n`-th message of the sequence as template `n`, and no other template variables. */
  lemma LeadTemplates(ct: Contact, seqn: seq<Message>)
    ensures var lead := LeadOf(ct, Variables(seqn));
      && (forall n :: 1 <= n <= |seqn| ==> Template(n, SubjectPart) in lead && lead[Template(n, SubjectPart)] == seqn[n - 1].subject)
      && (forall n :: 1 <= n <= |seqn| ==> Template(n, BodyPart) in lead && lead[Template(n, BodyPart)] == seqn[n - 1].body)
      && (forall k :: k in lead && k.Template? ==> 1 <= k.n <= |seqn|)
  {
    VariablesExact(seqn);
    SpreadKeepsBoth(ContactMembers(ct), Variables(seqn));
  }

  /** One lead per contact with an email, in order; without such a contact, the message instead. */
  lemma LeadsPerContact(cs: seq<Option<Contact>>, ms: seq<Message>)
    ensures Leads(cs, ms).Err? <==> WithEmail(cs) == []
    ensures Leads(cs, ms).Err? ==> Leads(cs, ms).error == NoContactsMessage
    ensures Leads(cs, ms).Ok? ==> forall k :: 0 <= k < |WithEmail(cs)| ==>
      && WithEmail(cs)[k].businessEmail != ""
      && Leads(cs, ms).value[k] == LeadOf(WithEmail(cs)[k], Variables(EmailSequence(ms)))
  {
    forall k | 0 <= k < |WithEmail(cs)| ensures WithEmail(cs)[k].businessEmail != "" {
      assert WithEmail(cs)[k] in WithEmail(cs);
    }
  }

  // ------------------------------------------------------------ next step

  function MaxStep(ms: seq<Message>): (r: int)
    requires ms != []
    ensures forall m :: m in ms ==> m.step <= r
    ensures exists k :: 0 <= k < |ms| && ms[k].step == r
    decreases |ms|
  {
    if |ms| == 1 then ms[0].step
    else
      var rest := MaxStep(ms[1..]);
      assert forall m :: m in ms ==> m == ms[0] || m in ms[1..];
      assert forall k :: 0 <= k < |ms| - 1 ==> ms[1..][k] == ms[k + 1];
      if ms[0].step >= rest then ms[0].step else rest
  }

  /** The step number of a new message: one past the greatest, or 1 for the first message. */
  function NextStep(ms: seq<Message>): int {
    if |ms| > 0 then MaxStep(ms) + 1 else 1
  }

  /** The new step is greater than every existing one, and directly follows the greatest. */
  lemma NextStepFresh(ms: seq<Message>)
    ensures forall m :: m in ms ==> m.step < NextStep(ms)
    ensures ms == [] ==> NextStep(ms) == 1
    ensures ms != [] ==> exists m :: m in ms && m.step == NextStep(ms) - 1
  {
    if ms != [] {
      var k :| 0 <= k < |ms| && ms[k].step == MaxStep(ms);
      assert ms[k] in ms && ms[k].step == NextStep(ms) - 1;
    }
  }

  /** Adding the message with the next step makes the step after it one greater. */
  lemma NextStepAdvances(ms: seq<Message>, m: Message)
    requires m.step == NextStep(ms)
    ensures NextStep(ms + [m]) == NextStep(ms) + 1
  {
    var all := ms + [m];
    assert m in all;
    forall x | x in all ensures x.step <= m.step {
      if x != m { assert x in ms; }
    }
    var r := MaxStep(all);
    assert r >= m.step;
    var k :| 0 <= k < |all| && all[k].step == r;
    assert all[k] in all;
  }
}
