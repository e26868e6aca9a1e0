/** The page shell's own logic: the English/Arabic language switch with its
    stored default, and the contact form with its field updates, its loose
    e-mail check and its submit rule. */
module App {
  import opened Options

  // ---------------------------------------------------------------- language

  /** The language on first render: the stored preference unless it is
      missing or empty, otherwise English. */
  function InitialLanguage(saved: Option<string>): (l: string)
    ensures l != ""
    ensures saved.Some? && saved.value != "" ==> l == saved.value
    ensures saved == None || saved == Some("") ==> l == "Eng"
  {
    match saved
    case Some(s) => if s != "" then s else "Eng"
    case None => "Eng"
  }

  /** The toggle: English becomes Arabic, anything else becomes English. */
  function Toggled(l: string): (r: string)
    ensures r == "Eng" || r == "Arb"
    ensures r == "Arb" <==> l == "Eng"
  {
    if l == "Eng" then "Arb" else "Eng"
  }

  /** On the two languages the toggle is an involution; any other stored
      value is normalised to English first. */
  lemma ToggleInvolution(l: string)
    ensures l == "Eng" || l == "Arb" ==> Toggled(Toggled(l)) == l
    ensures l != "Eng" && l != "Arb" ==> Toggled(Toggled(l)) == "Arb"
  {
  }

  // -------------------------------------------------------------- e-mail check

  /** The characters JavaScript's `\s` class matches (its WhiteSpace and
      LineTerminator code points). */
  predicate IsWhitespace(c: char) {
    var n := c as int;
    n == 0x09 || n == 0x0A || n == 0x0B || n == 0x0C || n == 0x0D || n == 0x20 ||
    n == 0xA0 || n == 0x1680 || (0x2000 <= n <= 0x200A) || n == 0x2028 || n == 0x2029 ||
    n == 0x202F || n == 0x205F || n == 0x3000 || n == 0xFEFF
  }

  /** A run the pattern's `[^\s@]+` matches: non-empty, no whitespace, no '@'. */
  predicate Segment(t: string) {
    |t| > 0 && forall k :: 0 <= k < |t| ==> !IsWhitespace(t[k]) && t[k] != '@'
  }

  /** `s` splits as segment '@' segment '.' segment with the '@' at `i` and
      the '.' at `j`. */
  predicate SplitsAt(s: string, i: int, j: int) {
    0 <= i < j < |s| && s[i] == '@' && s[j] == '.' &&
    Segment(s[..i]) && Segment(s[i + 1..j]) && Segment(s[j + 1..])
  }

  /** The pattern `^[^\s@]+@[^\s@]+\.[^\s@]+$`: the whole string matches when
      some choice of '@' and '.' splits it into three segments. */
  function IsValidEmail(s: string): (ok: bool)
    ensures ok ==> |s| >= 5
  {
    exists i, j | 0 <= i < j < |s| :: SplitsAt(s, i, j)
  }

  predicate NoWhitespace(s: string) {
    forall k :: 0 <= k < |s| ==> !IsWhitespace(s[k])
  }

  /** The only '@' in `s` is the one at index `i`. */
  predicate SoleAt(s: string, i: int) {
    0 <= i < |s| && s[i] == '@' && forall k :: 0 <= k < |s| && s[k] == '@' ==> k == i
  }

  /** `d` has a '.' that is neither its first nor its last character. */
  predicate HasInnerDot(d: string) {
    exists m :: 0 < m < |d| - 1 && d[m] == '.'
  }

  /** The loose shape the check accepts, stated without the pattern: exactly
      one '@', no whitespace, something before the '@', and a '.' inside the
      part after it. */
  predicate LooseEmail(s: string) {
    NoWhitespace(s) && exists i | 0 <= i < |s| :: SoleAt(s, i) && 0 < i && HasInnerDot(s[i + 1..])
  }

  lemma ValidEmailIsLoose(s: string, i: int, j: int)
    requires SplitsAt(s, i, j)
    ensures SoleAt(s, i) && NoWhitespace(s) && HasInnerDot(s[i + 1..])
  {
  }

  lemma SegmentOfSlice(s: string, lo: int, hi: int)
    requires 0 <= lo < hi <= |s|
    requires forall k :: lo <= k < hi ==> !IsWhitespace(s[k]) && s[k] != '@'
    ensures Segment(s[lo..hi])
  {
  }

  lemma LooseEmailIsValid(s: string, i: int)
    requires NoWhitespace(s) && SoleAt(s, i) && 0 < i && HasInnerDot(s[i + 1..])
    ensures IsValidEmail(s)
  {
    var d := s[i + 1..];
    var m :| 0 < m < |d| - 1 && d[m] == '.';
    var j := i + 1 + m;
    assert s[j] == '.';
    SegmentOfSlice(s, 0, i);
    SegmentOfSlice(s, i + 1, j);
    SegmentOfSlice(s, j + 1, |s|);
    assert s[0..i] == s[..i] && s[j + 1..|s|] == s[j + 1..];
    assert SplitsAt(s, i, j);
  }

  /** The pattern accepts exactly the loose local@domain.tld shape. */
  lemma ValidEmailIffLoose(s: string)
    ensures IsValidEmail(s) <==> LooseEmail(s)
  {
    if IsValidEmail(s) {
      var i, j :| 0 <= i < j < |s| && SplitsAt(s, i, j);
      ValidEmailIsLoose(s, i, j);
    }
    if LooseEmail(s) {
      var i :| SoleAt(s, i) && 0 < i && HasInnerDot(s[i + 1..]);
      LooseEmailIsValid(s, i);
    }
  }

  // ------------------------------------------------------------------- form

  datatype Form = Form(name: string, email: string, message: string)

  const EmptyForm: Form := Form("", "", "")

  /** The controlled-input update: the field whose id is `id` takes `value`
      and the others keep theirs. An id other than the three fields' leaves
      the three fields as they were. */
  function SetField(f: Form, id: string, value: string): (r: Form)
    ensures r.name == (if id == "name" then value else f.name)
    ensures r.email == (if id == "email" then value else f.email)
    ensures r.message == (if id == "message" then value else f.message)
  {
    if id == "name" then f.(name := value)
    else if id == "email" then f.(email := value)
    else if id == "message" then f.(message := value)
    else f
  }

  datatype Rejection = InvalidEmail | MissingField

  datatype Outcome = Rejected(reason: Rejection) | Sent

  /** The submit rule: the e-mail check comes first, then the check that no
      field is empty; only a form that passes both is sent. Because a valid
      e-mail is never empty, the e-mail's own emptiness test can never be
      the one that rejects. */
  function SubmitOutcome(f: Form): (r: Outcome)
    ensures r == Rejected(InvalidEmail) <==> !IsValidEmail(f.email)
    ensures r == Rejected(MissingField) <==>
      IsValidEmail(f.email) && (f.name == "" || f.message == "")
    ensures r == Sent <==> IsValidEmail(f.email) && f.name != "" && f.message != ""
  {
    if !IsValidEmail(f.email) then Rejected(InvalidEmail)
    else if f.name == "" || f.email == "" || f.message == "" then Rejected(MissingField)
    else Sent
  }

  // ------------------------------------------------------------------- page

  /** The page's state: the language, the form and the success flag. */
  class ContactPage {
    var language: string
    var form: Form
    var showSuccess: bool

    constructor (saved: Option<string>)
      ensures language == InitialLanguage(saved)
      ensures form == EmptyForm && !showSuccess
    {
      language := InitialLanguage(saved);
      form := EmptyForm;
      showSuccess := false;
    }

    method ToggleLanguage()
      modifies this
      ensures language == Toggled(old(language))
      ensures form == old(form) && showSuccess == old(showSuccess)
    {
      language := Toggled(language);
    }

    method InputChange(id: string, value: string)
      modifies this
      ensures form == SetField(old(form), id, value)
      ensures language == old(language) && showSuccess == old(showSuccess)
    {
      form := SetField(form, id, value);
    }

    /** A rejected submission changes nothing; a sent one clears the form
        and raises the success flag. */
    method Submit() returns (outcome: Outcome)
      modifies this
      ensures outcome == SubmitOutcome(old(form))
      ensures outcome.Rejected? ==> form == old(form) && showSuccess == old(showSuccess)
      ensures outcome == Sent ==> form == EmptyForm && showSuccess
      ensures language == old(language)
    {
      if !IsValidEmail(form.email) {
        return Rejected(InvalidEmail);
      }
      if form.name == "" || form.email == "" || form.message == "" {
        return Rejected(MissingField);
      }
      form := EmptyForm;
      showSuccess := true;
      outcome := Sent;
    }
  }
}
