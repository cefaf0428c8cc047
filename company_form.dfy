/**
 * The company detail form: its two format validators, the rule table, the
 * form values built from a company, the company built back from the form on
 * submit, the jobs tab, and the modal's tab and submit state.
 */
module CompanyForm {
  import opened Wrappers
  import opened Text
  import opened Seqs
  import opened Types
  import opened Saving

  // ---------------------------------------------------------------- email

  /** `[^\s@]` */
  predicate EmailChar(c: char) {
    !IsSpace(c) && c != '@'
  }

  /** `[^\s@]+` */
  predicate Run(s: string) {
    |s| > 0 && forall i :: 0 <= i < |s| ==> EmailChar(s[i])
  }

  /** `/^[^\s@]+@[^\s@]+\.[^\s@]+$/` matches with the `@` at `a` and the chosen `.` at `b`. */
  predicate EmailMatchAt(s: string, a: int, b: int) {
    0 < a && a + 1 < b && b + 1 < |s|
    && Run(s[..a]) && s[a] == '@' && Run(s[a + 1..b]) && s[b] == '.' && Run(s[b + 1..])
  }

  /** The email regular expression accepts `s`; such a string has an `@` and a `.`, and at
      least five characters. */
  predicate EmailPattern(s: string)
    ensures EmailPattern(s) ==> 5 <= |s| && '@' in s && '.' in s
  {
    exists a, b | 0 < a < b < |s| :: EmailMatchAt(s, a, b)
  }

  /** `d` has a `.` that is neither its first nor its last character. */
  predicate DotInside(d: string) {
    exists i :: 0 < i < |d| - 1 && d[i] == '.'
  }

  /** The same language described position by position: no white space, exactly one `@` with
      something before it, and a `.` strictly inside the part after it. */
  predicate EmailShape(s: string) {
    (forall i :: 0 <= i < |s| ==> !IsSpace(s[i]))
    && exists a :: 0 < a < |s| && s[a] == '@'
         && (forall i :: 0 <= i < |s| && i != a ==> s[i] != '@')
         && DotInside(s[a + 1..])
  }

  lemma EmailPatternGivesShape(s: string, a: int, b: int)
    requires EmailMatchAt(s, a, b)
    ensures EmailShape(s)
  {
    forall i | 0 <= i < |s| ensures !IsSpace(s[i]) && (i != a ==> s[i] != '@') {
      if i < a { assert s[..a][i] == s[i]; }
      else if a < i < b { assert s[a + 1..b][i - a - 1] == s[i]; }
      else if i > b { assert s[b + 1..][i - b - 1] == s[i]; }
    }
    var d := s[a + 1..];
    assert d[b - a - 1] == '.';
    assert DotInside(d);
  }

  lemma RunOfSlice(s: string, lo: int, hi: int)
    requires 0 <= lo < hi <= |s|
    requires forall j :: lo <= j < hi ==> EmailChar(s[j])
    ensures Run(s[lo..hi])
  {
    forall i | 0 <= i < hi - lo ensures EmailChar(s[lo..hi][i]) {
      assert s[lo..hi][i] == s[lo + i];
    }
  }

  lemma EmailShapeGivesPattern(s: string)
    requires EmailShape(s)
    ensures EmailPattern(s)
  {
    var a :| 0 < a < |s| && s[a] == '@'
         && (forall i :: 0 <= i < |s| && i != a ==> s[i] != '@')
         && DotInside(s[a + 1..]);
    var d := s[a + 1..];
    var k :| 0 < k < |d| - 1 && d[k] == '.';
    var b := a + 1 + k;
    assert s[b] == '.';
    forall j | 0 <= j < |s| && j != a && j != b ensures EmailChar(s[j]) { }
    RunOfSlice(s, 0, a);
    assert s[..a] == s[0..a];
    RunOfSlice(s, a + 1, b);
    RunOfSlice(s, b + 1, |s|);
    assert s[b + 1..] == s[b + 1..|s|];
    assert EmailMatchAt(s, a, b);
  }

  /** The regular expression and the position-by-position description accept the same strings. */
  lemma EmailPatternIff(s: string)
    ensures EmailPattern(s) <==> EmailShape(s)
  {
    if EmailPattern(s) {
      var a, b :| EmailMatchAt(s, a, b);
      EmailPatternGivesShape(s, a, b);
    }
    if EmailShape(s) {
      EmailShapeGivesPattern(s);
    }
  }

  const InvalidEmail: string := "Invalid email address"

  /** `email()`: no error for an empty value, else an error unless the pattern matches. */
  function EmailCheck(value: string): (r: Option<string>)
    ensures r.None? <==> value == "" || EmailShape(value)
    ensures r.Some? ==> r.value == InvalidEmail
  {
    EmailPatternIff(value);
    if value == "" then None
    else if EmailPattern(value) then None
    else Some(InvalidEmail)
  }

  // ---------------------------------------------------------------- phone

  /** `[-\s.]` */
  predicate IsSep(c: char) {
    c == '-' || IsSpace(c) || c == '.'
  }

  /** The pieces of a phone number the regular expression
      `/^[+]?[(]?[0-9]{3}[)]?[-\s.]?[0-9]{3}[-\s.]?[0-9]{4,6}$/` matches, one per item. */
  datatype PhoneParts = PhoneParts(
    plus: bool, open: bool, area: string, close: bool,
    sep1: Option<char>, exchange: string, sep2: Option<char>, line: string)

  /** Each piece is what its item of the expression admits. */
  predicate WellFormed(p: PhoneParts) {
    |p.area| == 3 && AllDigits(p.area)
    && |p.exchange| == 3 && AllDigits(p.exchange)
    && 4 <= |p.line| <= 6 && AllDigits(p.line)
    && (p.sep1.Some? ==> IsSep(p.sep1.value))
    && (p.sep2.Some? ==> IsSep(p.sep2.value))
  }

  function Flag(present: bool, c: char): string {
    if present then [c] else []
  }

  function OptChar(o: Option<char>): string {
    if o.Some? then [o.value] else []
  }

  /** The pieces from the exchange on. */
  function RenderExchange(p: PhoneParts): string {
    p.exchange + (OptChar(p.sep2) + p.line)
  }

  /** The pieces after the area code. */
  function RenderAfterArea(p: PhoneParts): string {
    Flag(p.close, ')') + (OptChar(p.sep1) + RenderExchange(p))
  }

  /** The string the pieces spell. */
  function Render(p: PhoneParts): string {
    Flag(p.plus, '+') + (Flag(p.open, '(') + (p.area + RenderAfterArea(p)))
  }

  /** `[c]?`: take `c` when it is next. */
  function TakeChar(s: string, c: char): (bool, string) {
    if |s| > 0 && s[0] == c then (true, s[1..]) else (false, s)
  }

  /** `[-\s.]?` */
  function TakeSep(s: string): (Option<char>, string) {
    if |s| > 0 && IsSep(s[0]) then (Some(s[0]), s[1..]) else (None, s)
  }

  /** `[0-9]{3}` */
  function TakeDigits(s: string): Option<(string, string)> {
    if 3 <= |s| && AllDigits(s[..3]) then Some((s[..3], s[3..])) else None
  }

  /** `[0-9]{3}[-\s.]?[0-9]{4,6}$` after the first separator. */
  function ParseExchange(s: string, plus: bool, open: bool, area: string, close: bool, sep1: Option<char>): Option<PhoneParts> {
    var e := TakeDigits(s);
    if e.None? then None
    else
      var sep := TakeSep(e.value.1);
      var line := sep.1;
      if 4 <= |line| <= 6 && AllDigits(line)
      then Some(PhoneParts(plus, open, area, close, sep1, e.value.0, sep.0, line))
      else None
  }

  /** `[)]?[-\s.]?` and the rest, after the area code. */
  function ParseAfterArea(s: string, plus: bool, open: bool, area: string): Option<PhoneParts> {
    var c := TakeChar(s, ')');
    var sep := TakeSep(c.1);
    ParseExchange(sep.1, plus, open, area, c.0, sep.0)
  }

  /** Matches the expression item by item. No optional item can also begin the item after it
      (none of `+`, `(`, `)` or a separator is a digit, and `)` is not a separator), so taking
      each optional character when it is present is the only way to match. */
  /** What it finds is well formed and spells the input. */
  function ParsePhone(s: string): (r: Option<PhoneParts>)
    ensures r.Some? ==> WellFormed(r.value) && Render(r.value) == s
  {
    var p := TakeChar(s, '+');
    var o := TakeChar(p.1, '(');
    var a := TakeDigits(o.1);
    if a.None? then None
    else
      TakeCharSound(s, '+');
      TakeCharSound(p.1, '(');
      TakeDigitsSound(o.1);
      var r := ParseAfterArea(a.value.1, p.0, o.0, a.value.0);
      if r.Some? then
        ParseAfterAreaSound(a.value.1, p.0, o.0, a.value.0);
        r
      else r
  }

  lemma TakeCharSound(s: string, c: char)
    ensures s == Flag(TakeChar(s, c).0, c) + TakeChar(s, c).1
  {
    if |s| > 0 && s[0] == c { assert s == [c] + s[1..]; }
  }

  lemma TakeSepSound(s: string)
    ensures TakeSep(s).0.Some? ==> IsSep(TakeSep(s).0.value)
    ensures s == OptChar(TakeSep(s).0) + TakeSep(s).1
  {
    if |s| > 0 && IsSep(s[0]) { assert s == [s[0]] + s[1..]; }
  }

  lemma TakeDigitsSound(s: string)
    requires TakeDigits(s).Some?
    ensures var d := TakeDigits(s).value; |d.0| == 3 && AllDigits(d.0) && s == d.0 + d.1
  {
  }

  lemma ParseExchangeSound(s: string, plus: bool, open: bool, area: string, close: bool, sep1: Option<char>)
    requires ParseExchange(s, plus, open, area, close, sep1).Some?
    ensures var p := ParseExchange(s, plus, open, area, close, sep1).value;
      && p.plus == plus && p.open == open && p.area == area && p.close == close && p.sep1 == sep1
      && |p.exchange| == 3 && AllDigits(p.exchange) && 4 <= |p.line| <= 6 && AllDigits(p.line)
      && (p.sep2.Some? ==> IsSep(p.sep2.value))
      && RenderExchange(p) == s
  {
    TakeDigitsSound(s);
    TakeSepSound(TakeDigits(s).value.1);
  }

  lemma ParseAfterAreaSound(s: string, plus: bool, open: bool, area: string)
    requires ParseAfterArea(s, plus, open, area).Some?
    ensures var p := ParseAfterArea(s, plus, open, area).value;
      && p.plus == plus && p.open == open && p.area == area
      && |p.exchange| == 3 && AllDigits(p.exchange) && 4 <= |p.line| <= 6 && AllDigits(p.line)
      && (p.sep1.Some? ==> IsSep(p.sep1.value)) && (p.sep2.Some? ==> IsSep(p.sep2.value))
      && RenderAfterArea(p) == s
  {
    var c := TakeChar(s, ')');
    TakeCharSound(s, ')');
    TakeSepSound(c.1);
    var sep := TakeSep(c.1);
    ParseExchangeSound(sep.1, plus, open, area, c.0, sep.0);
  }

  lemma TakeCharOf(present: bool, c: char, rest: string)
    requires rest == [] || rest[0] != c
    ensures TakeChar(Flag(present, c) + rest, c) == (present, rest)
  {
    var t := Flag(present, c) + rest;
    if present {
      assert t[0] == c && t[1..] == rest;
    } else {
      assert t == rest;
    }
  }

  lemma TakeSepOf(o: Option<char>, rest: string)
    requires o.Some? ==> IsSep(o.value)
    requires rest == [] || !IsSep(rest[0])
    ensures TakeSep(OptChar(o) + rest) == (o, rest)
  {
    var t := OptChar(o) + rest;
    if o.Some? {
      assert t[0] == o.value && t[1..] == rest;
    } else {
      assert t == rest;
    }
  }

  lemma TakeDigitsOf(d: string, rest: string)
    requires |d| == 3 && AllDigits(d)
    ensures TakeDigits(d + rest) == Some((d, rest))
  {
    assert (d + rest)[..3] == d;
    assert (d + rest)[3..] == rest;
  }

  lemma ParseExchangeComplete(p: PhoneParts)
    requires WellFormed(p)
    ensures ParseExchange(RenderExchange(p), p.plus, p.open, p.area, p.close, p.sep1) == Some(p)
  {
    TakeDigitsOf(p.exchange, OptChar(p.sep2) + p.line);
    assert IsDigit(p.line[0]);
    TakeSepOf(p.sep2, p.line);
  }

  lemma ParseAfterAreaComplete(p: PhoneParts)
    requires WellFormed(p)
    ensures ParseAfterArea(RenderAfterArea(p), p.plus, p.open, p.area) == Some(p)
  {
    var t := RenderExchange(p);
    assert IsDigit(p.exchange[0]) && t[0] == p.exchange[0];
    TakeSepOf(p.sep1, t);
    var u := OptChar(p.sep1) + t;
    assert u[0] != ')';
    TakeCharOf(p.close, ')', u);
    ParseExchangeComplete(p);
  }

  /** Every well-formed set of pieces is found again, unchanged, in the string it spells. */
  lemma ParsePhoneComplete(p: PhoneParts)
    requires WellFormed(p)
    ensures ParsePhone(Render(p)) == Some(p)
  {
    var t := p.area + RenderAfterArea(p);
    assert IsDigit(p.area[0]) && t[0] == p.area[0];
    TakeCharOf(p.open, '(', t);
    var u := Flag(p.open, '(') + t;
    assert u[0] != '+';
    TakeCharOf(p.plus, '+', u);
    TakeDigitsOf(p.area, RenderAfterArea(p));
    ParseAfterAreaComplete(p);
  }

  /** The phone regular expression accepts `s`. */
  predicate PhonePattern(s: string) {
    ParsePhone(s).Some?
  }

  /** An accepted number is 10 to 17 characters long. */
  lemma PhoneLength(s: string)
    requires PhonePattern(s)
    ensures 10 <= |s| <= 17
  {
    var p := ParsePhone(s).value;
    assert |RenderExchange(p)| == 3 + |OptChar(p.sep2)| + |p.line|;
    assert |RenderAfterArea(p)| == |Flag(p.close, ')')| + |OptChar(p.sep1)| + |RenderExchange(p)|;
    assert |s| == |Flag(p.plus, '+')| + |Flag(p.open, '(')| + 3 + |RenderAfterArea(p)|;
  }

  /** The phone regular expression accepts exactly the strings that well-formed pieces spell. */
  lemma PhonePatternIff(s: string)
    ensures PhonePattern(s) <==> exists p :: WellFormed(p) && Render(p) == s
  {
    if exists p :: WellFormed(p) && Render(p) == s {
      var p :| WellFormed(p) && Render(p) == s;
      ParsePhoneComplete(p);
    }
  }

  const InvalidPhone: string := "Invalid phone number"

  /** `phoneNumber()`: no error for an empty value, else an error unless the pattern matches. */
  function PhoneCheck(value: string): (r: Option<string>)
    ensures r.None? <==> value == "" || exists p :: WellFormed(p) && Render(p) == value
    ensures r.Some? ==> r.value == InvalidPhone
  {
    PhonePatternIff(value);
    if value == "" then None
    else if PhonePattern(value) then None
    else Some(InvalidPhone)
  }

  /** Parentheses around the area code with a space and a dash as separators. */
  lemma PhoneExampleParentheses()
    ensures PhonePattern("(555) 123-4567")
  {
    var p := PhoneParts(false, true, "555", true, Some(' '), "123", Some('-'), "4567");
    assert Render(p) == "(555) 123-4567";
    ParsePhoneComplete(p);
  }

  /** A leading plus, no separators and six final digits. */
  lemma PhoneExamplePlus()
    ensures PhonePattern("+555123456789")
  {
    var p := PhoneParts(true, false, "555", false, None, "123", None, "456789");
    assert Render(p) == "+555123456789";
    ParsePhoneComplete(p);
  }

  /** Seven digits are too few. */
  lemma PhoneExampleTooShort()
    ensures !PhonePattern("555-1234")
  {
    if PhonePattern("555-1234") { PhoneLength("555-1234"); }
  }

  // ---------------------------------------------------------------- form values and rules

  /** The form's values, all strings. */
  datatype FormValues = FormValues(
    name: string, industry: string, website: string, contactPerson: string,
    contactEmail: string, contactPhone: string, address: string, notes: string, officeId: string)

  datatype Field = Name | Industry | Website | ContactPerson | ContactEmail | ContactPhone | Address | Notes | OfficeId

  function ValueOf(v: FormValues, f: Field): string {
    match f
    case Name => v.name
    case Industry => v.industry
    case Website => v.website
    case ContactPerson => v.contactPerson
    case ContactEmail => v.contactEmail
    case ContactPhone => v.contactPhone
    case Address => v.address
    case Notes => v.notes
    case OfficeId => v.officeId
  }

  /** Set one field, as the form's change handler does. */
  function SetField(v: FormValues, f: Field, value: string): (r: FormValues)
    ensures ValueOf(r, f) == value
    ensures forall g :: g != f ==> ValueOf(r, g) == ValueOf(v, g)
  {
    match f
    case Name => v.(name := value)
    case Industry => v.(industry := value)
    case Website => v.(website := value)
    case ContactPerson => v.(contactPerson := value)
    case ContactEmail => v.(contactEmail := value)
    case ContactPhone => v.(contactPhone := value)
    case Address => v.(address := value)
    case Notes => v.(notes := value)
    case OfficeId => v.(officeId := value)
  }

  /** One entry of a field's rule list. */
  datatype Rule = Required(what: string) | EmailFormat | PhoneFormat

  /** `validationRules`: name, industry, contact person and contact email are required, the
      email and the phone have a format rule each, and the other fields have no rule. */
  function Rules(f: Field): (r: seq<Rule>)
    ensures (exists i :: 0 <= i < |r| && r[i].Required?) <==>
      f in {Name, Industry, ContactPerson, ContactEmail}
    ensures EmailFormat in r <==> f == ContactEmail
    ensures PhoneFormat in r <==> f == ContactPhone
    ensures f in {Website, Address, Notes, OfficeId} ==> r == []
  {
    match f
    case Name => var r := [Required("Company name")]; assert r[0].Required?; r
    case Industry => var r := [Required("Industry")]; assert r[0].Required?; r
    case ContactPerson => var r := [Required("Contact person")]; assert r[0].Required?; r
    case ContactEmail => var r := [Required("Contact email"), EmailFormat]; assert r[0].Required?; r
    case ContactPhone => [PhoneFormat]
    case _ => []
  }

  datatype FieldError = Missing(what: string) | Invalid(message: string)

  /** One rule on one value; `required` is taken as "not empty". An empty value breaks only a
      `required` rule, and only a `required` rule reports a missing value. */
  function Check(rule: Rule, value: string): (r: Option<FieldError>)
    ensures value == "" ==> (r.Some? <==> rule.Required?)
    ensures r.Some? ==> (r.value.Missing? <==> rule.Required?)
    ensures r.Some? && r.value.Missing? ==> r.value.what == rule.what
  {
    match rule
    case Required(what) => if value == "" then Some(Missing(what)) else None
    case EmailFormat => if EmailCheck(value).Some? then Some(Invalid(EmailCheck(value).value)) else None
    case PhoneFormat => if PhoneCheck(value).Some? then Some(Invalid(PhoneCheck(value).value)) else None
  }

  /** The first rule of the list that the value breaks. */
  function FirstError(rules: seq<Rule>, value: string): (r: Option<FieldError>)
    ensures r.None? <==> forall i :: 0 <= i < |rules| ==> Check(rules[i], value).None?
    decreases |rules|
  {
    if |rules| == 0 then None
    else if Check(rules[0], value).Some? then Check(rules[0], value)
    else
      var r := FirstError(rules[1..], value);
      assert r.None? <==> forall i :: 0 <= i < |rules| ==> Check(rules[i], value).None? by {
        assert forall i :: 1 <= i < |rules| ==> rules[i] == rules[1..][i - 1];
      }
      r
  }

  function ErrorOf(v: FormValues, f: Field): Option<FieldError> {
    FirstError(Rules(f), ValueOf(v, f))
  }

  /** `validate()`: every field keeps all its rules, so the four required fields are filled in. */
  predicate Valid(v: FormValues)
    ensures Valid(v) ==> v.name != "" && v.industry != "" && v.contactPerson != "" && v.contactEmail != ""
  {
    var ok := forall f :: ErrorOf(v, f).None?;
    assert ok ==> ErrorOf(v, Name).None? && ErrorOf(v, Industry).None?
                  && ErrorOf(v, ContactPerson).None? && ErrorOf(v, ContactEmail).None?;
    ok
  }

  /** Whether one field keeps its rules, spelled out. */
  predicate FieldOk(v: FormValues, f: Field) {
    match f
    case Name => v.name != ""
    case Industry => v.industry != ""
    case ContactPerson => v.contactPerson != ""
    case ContactEmail => v.contactEmail != "" && EmailShape(v.contactEmail)
    case ContactPhone => v.contactPhone == "" || PhonePattern(v.contactPhone)
    case _ => true
  }

  lemma ErrorOfField(v: FormValues, f: Field)
    ensures ErrorOf(v, f).None? <==> FieldOk(v, f)
  {
    var rules := Rules(f);
    var value := ValueOf(v, f);
    match f
    case ContactEmail =>
      assert rules[0] == Required("Contact email") && rules[1] == EmailFormat;
      if value != "" && !EmailShape(value) { assert Check(rules[1], value).Some?; }
    case ContactPhone =>
      PhonePatternIff(value);
      assert rules[0] == PhoneFormat;
      if value != "" && !PhonePattern(value) { assert Check(rules[0], value).Some?; }
    case Name => assert rules[0] == Required("Company name");
    case Industry => assert rules[0] == Required("Industry");
    case ContactPerson => assert rules[0] == Required("Contact person");
    case _ =>
  }

  /** The rule table spelled out: name, industry and contact person must be filled in, the contact
      email must be filled in and well formed, the phone may be empty but must otherwise be well
      formed, and nothing else is checked. */
  lemma ValidIff(v: FormValues)
    ensures Valid(v) <==>
      && v.name != "" && v.industry != "" && v.contactPerson != ""
      && v.contactEmail != "" && EmailShape(v.contactEmail)
      && (v.contactPhone == "" || PhonePattern(v.contactPhone))
  {
    forall f ensures ErrorOf(v, f).None? <==> FieldOk(v, f) {
      ErrorOfField(v, f);
    }
    assert (FieldOk(v, Name) && FieldOk(v, Industry) && FieldOk(v, ContactPerson)
            && FieldOk(v, ContactEmail) && FieldOk(v, ContactPhone)) ==> forall f :: FieldOk(v, f);
  }

  /** Only the phone's format rule applies to it: an empty phone is never an error. */
  lemma PhoneNotRequired(v: FormValues)
    ensures ErrorOf(v, ContactPhone) != Some(Missing("Contact phone"))
    ensures v.contactPhone == "" ==> ErrorOf(v, ContactPhone).None?
  {
  }

  // ---------------------------------------------------------------- form <-> record

  function OrEmpty(o: Option<string>): string {
    o.GetOr("")
  }

  /** `value || undefined` on a string. */
  function AbsentIfEmpty(s: string): Option<string> {
    if s == "" then None else Some(s)
  }

  /** The optional as the form round-trips it: a present empty string becomes absent. */
  function Normalized(o: Option<string>): (r: Option<string>)
    ensures r == AbsentIfEmpty(OrEmpty(o))
    ensures r != Some("")
    ensures o != Some("") ==> r == o
  {
    if o == Some("") then None else o
  }

  const DefaultOfficeId: string := "1"

  /** `initialValues`: the company's fields with absent optionals as `''`, or an empty form for
      the user's office (`'1'` when there is none). */
  function InitialValues(company: Option<Company>, user: Option<User>): (r: FormValues)
    ensures company.Some? ==>
      var c := company.value;
      && r.name == c.name && r.industry == c.industry && r.contactPerson == c.contactPerson
      && r.contactEmail == c.contactEmail && r.officeId == c.officeId
      && r.website == OrEmpty(c.website) && r.contactPhone == OrEmpty(c.contactPhone)
      && r.address == OrEmpty(c.address) && r.notes == OrEmpty(c.notes)
    ensures company.None? ==>
      && r.name == "" && r.industry == "" && r.website == "" && r.contactPerson == ""
      && r.contactEmail == "" && r.contactPhone == "" && r.address == "" && r.notes == ""
      && r.officeId == (if user.Some? && user.value.officeId != "" then user.value.officeId else DefaultOfficeId)
  {
    match company
    case Some(c) =>
      FormValues(c.name, c.industry, OrEmpty(c.website), c.contactPerson, c.contactEmail,
                 OrEmpty(c.contactPhone), OrEmpty(c.address), OrEmpty(c.notes), c.officeId)
    case None =>
      var office := if user.Some? then user.value.officeId else "";
      FormValues("", "", "", "", "", "", "", "", if office != "" then office else DefaultOfficeId)
  }

  /** `updatedCompany`: the form's values over the existing record's id, creation date and open
      positions, or a `temp-` id, `now` and 0 for a new company. `stamp` stands for `Date.now()`. */
  function Submitted(v: FormValues, company: Option<Company>, stamp: string, now: Instant): (r: Company)
    ensures RouteFor(r.id) == Update <==>
      company.Some? && company.value.id != "" && RouteFor(company.value.id) == Update
    ensures r.updatedAt == now
  {
    TempIdsCreate(stamp);
    Company(
      id := if company.Some? && company.value.id != "" then company.value.id else TempPrefix + stamp,
      name := v.name,
      industry := v.industry,
      website := AbsentIfEmpty(v.website),
      contactPerson := v.contactPerson,
      contactEmail := v.contactEmail,
      contactPhone := AbsentIfEmpty(v.contactPhone),
      address := AbsentIfEmpty(v.address),
      notes := AbsentIfEmpty(v.notes),
      officeId := v.officeId,
      createdAt := if company.Some? then company.value.createdAt else now,
      updatedAt := now,
      openPositions := if company.Some? then company.value.openPositions else 0)
  }

  /** The submitted record: every empty optional is absent and every other one is the form's
      text; an existing company keeps its non-empty id, its creation time and its open positions. */
  lemma SubmittedRecord(v: FormValues, company: Option<Company>, stamp: string, now: Instant)
    ensures var r := Submitted(v, company, stamp, now);
      && (r.website.None? <==> v.website == "") && OrEmpty(r.website) == v.website
      && (r.contactPhone.None? <==> v.contactPhone == "") && OrEmpty(r.contactPhone) == v.contactPhone
      && (r.address.None? <==> v.address == "") && OrEmpty(r.address) == v.address
      && (r.notes.None? <==> v.notes == "") && OrEmpty(r.notes) == v.notes
      && r.name == v.name && r.industry == v.industry && r.contactPerson == v.contactPerson
      && r.contactEmail == v.contactEmail && r.officeId == v.officeId && r.updatedAt == now
    ensures company.Some? ==>
      var r := Submitted(v, company, stamp, now);
      && r.createdAt == company.value.createdAt && r.openPositions == company.value.openPositions
      && (company.value.id != "" ==> r.id == company.value.id)
  {
  }

  /** A new company gets a temporary id, so saving it creates it, with no open positions. */
  lemma NewCompanyDefaults(v: FormValues, stamp: string, now: Instant)
    ensures var r := Submitted(v, None, stamp, now);
      && r.id == TempPrefix + stamp && RouteFor(r.id) == Create
      && r.openPositions == 0 && r.createdAt == now && r.updatedAt == now
  {
    TempIdsCreate(stamp);
  }

  /** Opening an existing company and submitting the form unchanged gives back the same company,
      updated now, with present-but-empty optionals turned absent; one with no such optionals and
      a non-empty id comes back exactly, apart from `updatedAt`. */
  lemma InitSubmitRoundTrip(c: Company, user: Option<User>, stamp: string, now: Instant)
    ensures var r := Submitted(InitialValues(Some(c), user), Some(c), stamp, now);
      && r.name == c.name && r.industry == c.industry && r.contactPerson == c.contactPerson
      && r.contactEmail == c.contactEmail && r.officeId == c.officeId
      && r.website == Normalized(c.website) && r.contactPhone == Normalized(c.contactPhone)
      && r.address == Normalized(c.address) && r.notes == Normalized(c.notes)
      && r.createdAt == c.createdAt && r.openPositions == c.openPositions && r.updatedAt == now
      && (c.id != "" ==> r.id == c.id)
    ensures (c.id != "" && c.website != Some("") && c.contactPhone != Some("")
             && c.address != Some("") && c.notes != Some("")) ==>
      Submitted(InitialValues(Some(c), user), Some(c), stamp, now) == c.(updatedAt := now)
  {
  }

  /** Reopening a saved company shows exactly the values that were submitted. */
  lemma SubmitInitRoundTrip(v: FormValues, company: Option<Company>, user: Option<User>, stamp: string, now: Instant)
    ensures InitialValues(Some(Submitted(v, company, stamp, now)), user) == v
  {
  }

  // ---------------------------------------------------------------- jobs tab

  function ForCompany(id: string): Job -> bool {
    (j: Job) => j.companyId == id
  }

  /** `jobs.filter(job => job.companyId === company?.id)` */
  function JobsOf(jobs: seq<Job>, company: Option<Company>): (r: seq<Job>)
    ensures company.None? ==> r == []
    ensures company.Some? ==> forall j :: j in r <==> j in jobs && j.companyId == company.value.id
    ensures company.Some? ==>
      forall j :: multiset(r)[j] == if j.companyId == company.value.id then multiset(jobs)[j] else 0
    ensures IsSubsequence(r, jobs)
  {
    if company.None? then []
    else
      FilterIsSubsequence(jobs, ForCompany(company.value.id));
      FilterCount(jobs, ForCompany(company.value.id));
      Filter(jobs, ForCompany(company.value.id))
  }

  // ---------------------------------------------------------------- the modal

  datatype Tab = Details | Jobs | Activity

  /** What the modal tells its parent. */
  datatype ModalEvent = Saved(company: Company) | Dismissed

  /** One mounted modal. The page mounts it once and opening it for another company only changes
      its props, so the tab chosen on one opening is still chosen on the next. */
  class CompanyDetailModal {
    var company: Option<Company>
    var isOpen: bool
    const isCreate: bool
    const user: Option<User>
    var activeTab: Tab
    var values: FormValues
    var events: seq<ModalEvent>

    /** Only Details can be chosen while creating. */
    predicate Consistent()
      reads this
    {
      isCreate ==> activeTab == Details
    }

    /** The mount: `useState('details')` and the form's first values; the page starts it closed. */
    constructor (company: Option<Company>, user: Option<User>, isCreate: bool)
      ensures Consistent()
      ensures this.company == company && this.user == user && this.isCreate == isCreate
      ensures !isOpen && activeTab == Details && values == InitialValues(company, user) && events == []
    {
      this.company := company;
      this.user := user;
      this.isCreate := isCreate;
      isOpen := false;
      activeTab := Details;
      values := InitialValues(company, user);
      events := [];
    }

    /** The page opens the modal on a company: the tab stays as it was, and the form is taken to
        reload its values from the new company. */
    method Open(c: Option<Company>)
      requires Consistent()
      modifies this
      ensures Consistent()
      ensures company == c && isOpen
      ensures activeTab == old(activeTab) && events == old(events)
      ensures values == InitialValues(c, user)
    {
      company := c;
      isOpen := true;
      values := InitialValues(c, user);
    }

    /** A tab button; only Details exists while creating. */
    method SelectTab(tab: Tab)
      requires Consistent() && isOpen
      modifies this
      ensures Consistent()
      ensures activeTab == if tab == Details || !isCreate then tab else old(activeTab)
      ensures company == old(company) && isOpen
      ensures values == old(values) && events == old(events)
    {
      if tab == Details || !isCreate {
        activeTab := tab;
      }
    }

    /** An edit of one input. */
    method Edit(f: Field, value: string)
      requires Consistent() && isOpen
      modifies this
      ensures Consistent()
      ensures values == SetField(old(values), f, value)
      ensures company == old(company) && isOpen
      ensures activeTab == old(activeTab) && events == old(events)
    {
      values := SetField(values, f, value);
    }

    /** `handleSubmit`, reachable from the form and the save button, which only the Details tab
        shows: nothing when validation fails, else save the built company and close. */
    method Submit(stamp: string, now: Instant)
      requires Consistent() && isOpen && activeTab == Details
      modifies this
      ensures Consistent()
      ensures !Valid(old(values)) ==> events == old(events) && isOpen
      ensures Valid(old(values)) ==>
        events == old(events) + [Saved(Submitted(old(values), company, stamp, now)), Dismissed] && !isOpen
      ensures company == old(company) && values == old(values) && activeTab == old(activeTab)
    {
      if !Valid(values) {
        return;
      }
      var updated := Submitted(values, company, stamp, now);
      events := events + [Saved(updated), Dismissed];
      isOpen := false;
    }

    /** The Cancel button closes without saving. */
    method Cancel()
      requires Consistent() && isOpen
      modifies this
      ensures Consistent()
      ensures events == old(events) + [Dismissed] && !isOpen
      ensures company == old(company) && values == old(values) && activeTab == old(activeTab)
    {
      events := events + [Dismissed];
      isOpen := false;
    }
  }

  /** Open company `a`, go to Jobs, cancel, then open company `b`: the modal comes back on the Jobs
      tab, where neither the form nor the save button is shown. */
  method ReopenKeepsTab(a: Company, b: Company, user: Option<User>) returns (tab: Tab, open: Company)
    ensures tab == Jobs && open == b
  {
    var m := new CompanyDetailModal(None, user, false);
    m.Open(Some(a));
    m.SelectTab(Jobs);
    m.Cancel();
    m.Open(Some(b));
    tab, open := m.activeTab, m.company.value;
  }
}
