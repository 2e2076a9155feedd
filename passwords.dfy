/** The three password and registration rule sets of the sign-up screens:
    the auth page (five strength flags kept in component state), the auth
    form (a table of five regular expressions, the special characters
    narrower and the length rule a `.{8,}` pattern) and the register page
    (matching passwords of at least six characters). */
module Passwords {
  import opened Common
  import opened Groups
  import AuthSlice

  /** A bracket expression of a regular expression: a range such as
      `[A-Z]` or a list of characters. */
  datatype CharClass = Range(lo: char, hi: char) | OneOf(chars: string)

  predicate InClass(c: char, k: CharClass)
  {
    match k
    case Range(lo, hi) => lo <= c <= hi
    case OneOf(cs) => c in cs
  }

  const UPPER: CharClass := Range('A', 'Z')
  const LOWER: CharClass := Range('a', 'z')
  const DIGIT: CharClass := Range('0', '9')
  /** The auth page's special characters. */
  const PAGE_SPECIAL: CharClass := OneOf("!@#$%^&*(),.?\":{}|<>")
  /** The auth form's special characters. */
  const FORM_SPECIAL: CharClass := OneOf("!@#$%^&*")

  /** `/[...]/.test(p)`: the pattern matches when some character of `p` is
      in the class. */
  function Test(k: CharClass, p: string): (r: bool)
    ensures r <==> exists i :: 0 <= i < |p| && InClass(p[i], k)
  {
    if p == [] then false
    else if InClass(p[0], k) then true
    else
      var r := Test(k, p[1..]);
      assert forall i :: 1 <= i < |p| ==> p[i] == p[1..][i - 1];
      r
  }

  /** The characters `.` does not match. */
  predicate LineTerminator(c: char)
  {
    c == '\n' || c == '\r' || c == '\U{2028}' || c == '\U{2029}'
  }

  /** `k` characters from index `i` on, none of them a line terminator. */
  predicate RunFrom(p: string, i: nat, k: nat)
  {
    i + k <= |p| && forall j :: i <= j < i + k ==> !LineTerminator(p[j])
  }

  /** `/.{k,}/.test(p)`: some `k` consecutive characters of `p` contain no
      line terminator. */
  function DotRun(p: string, k: nat): (r: bool)
    ensures r <==> exists i: nat :: RunFrom(p, i, k)
  {
    if |p| < k then
      assert forall i: nat :: !RunFrom(p, i, k);
      false
    else if forall j :: 0 <= j < k ==> !LineTerminator(p[j]) then
      assert RunFrom(p, 0, k);
      true
    else
      DotRunStep(p, k);
      DotRun(p[1..], k)
  }

  /** When the first `k` characters hold a line terminator, a run of `k`
      starts somewhere after the first character. */
  lemma DotRunStep(p: string, k: nat)
    requires |p| >= k
    requires !(forall j :: 0 <= j < k ==> !LineTerminator(p[j]))
    ensures (exists i: nat :: RunFrom(p, i, k)) <==> exists i: nat :: RunFrom(p[1..], i, k)
  {
    if exists i: nat :: RunFrom(p[1..], i, k) {
      var i: nat :| RunFrom(p[1..], i, k);
      assert RunFrom(p, i + 1, k);
    }
    if exists i: nat :: RunFrom(p, i, k) {
      var i: nat :| RunFrom(p, i, k);
      assert i != 0;
      assert RunFrom(p[1..], i - 1, k);
    }
  }

  /** On a password without line breaks, `.{8,}` is just "at least eight
      characters"; in any case it needs eight. */
  lemma DotRunLength(p: string, k: nat)
    ensures DotRun(p, k) ==> |p| >= k
    ensures (forall j :: 0 <= j < |p| ==> !LineTerminator(p[j])) ==> (DotRun(p, k) <==> |p| >= k)
  {
    if (forall j :: 0 <= j < |p| ==> !LineTerminator(p[j])) && |p| >= k {
      assert RunFrom(p, 0, k);
    }
  }

  // ---------------------------------------------------------------------
  // The auth page

  /** The five flags of the auth page. */
  datatype Strength = Strength(hasLength: bool, hasUpperCase: bool, hasLowerCase: bool, hasNumber: bool, hasSpecial: bool)

  const NO_STRENGTH: Strength := Strength(false, false, false, false, false)

  /** validatePassword of the auth page. */
  function PageStrength(p: string): (s: Strength)
    ensures s.hasLength <==> |p| >= 8
    ensures s.hasUpperCase <==> exists i :: 0 <= i < |p| && 'A' <= p[i] <= 'Z'
    ensures s.hasLowerCase <==> exists i :: 0 <= i < |p| && 'a' <= p[i] <= 'z'
    ensures s.hasNumber <==> exists i :: 0 <= i < |p| && '0' <= p[i] <= '9'
    ensures s.hasSpecial <==> exists i :: 0 <= i < |p| && p[i] in "!@#$%^&*(),.?\":{}|<>"
  {
    Strength(|p| >= 8, Test(UPPER, p), Test(LOWER, p), Test(DIGIT, p), Test(PAGE_SPECIAL, p))
  }

  /** `Object.values(passwordStrength).every(Boolean)`. */
  predicate AllFlags(s: Strength)
  {
    s.hasLength && s.hasUpperCase && s.hasLowerCase && s.hasNumber && s.hasSpecial
  }

  /** The fields of the sign-in and sign-up forms. */
  datatype Field = Email | Password | ConfirmPassword

  datatype Action = Login | Register

  /** What a form hands to the login or register dispatch; the register
      page leaves the confirmation out. */
  datatype Payload = Payload(email: string, password: string, confirmPassword: Option<string>)

  datatype Dispatch = Dispatch(action: Action, payload: Payload)

  /** The auth page's form state: the three fields, the flags and whether
      the register tab is shown. */
  class AuthPage {
    var email: string
    var password: string
    var confirmPassword: string
    var strength: Strength
    var registerActive: bool

    /** The flags describe the password in the form. */
    predicate Valid()
      reads this
    {
      strength == PageStrength(password)
    }

    /** The form opens empty on the sign-in tab with every flag down, which
      is already what the empty password scores. */
    constructor ()
      ensures email == "" && password == "" && confirmPassword == ""
      ensures strength == NO_STRENGTH && !registerActive
      ensures Valid()
    {
      email := "";
      password := "";
      confirmPassword := "";
      strength := NO_STRENGTH;
      registerActive := false;
    }

    /** handleInputChange: the field takes the value, and the flags are
      recomputed only when the password changes. */
    method InputChange(name: Field, value: string)
      modifies this
      ensures email == (if name == Email then value else old(email))
      ensures password == (if name == Password then value else old(password))
      ensures confirmPassword == (if name == ConfirmPassword then value else old(confirmPassword))
      ensures strength == (if name == Password then PageStrength(value) else old(strength))
      ensures registerActive == old(registerActive)
      ensures old(Valid()) ==> Valid()
    {
      match name
      case Email => email := value;
      case Password =>
        password := value;
        strength := PageStrength(value);
      case ConfirmPassword => confirmPassword := value;
    }

    /** The switch between the sign-in and the register tab. */
    method SetRegisterActive(active: bool)
      modifies this
      ensures registerActive == active
      ensures email == old(email) && password == old(password) && confirmPassword == old(confirmPassword)
      ensures strength == old(strength)
    {
      registerActive := active;
    }

    /** handleSubmit: signing in always goes through with the whole form;
      registering goes through only with every flag up and matching
      passwords. While the flags describe the password, that is exactly a
      password meeting all five rules. */
    method Submit() returns (d: Option<Dispatch>)
      ensures !registerActive ==> d == Some(Dispatch(Login, Payload(email, password, Some(confirmPassword))))
      ensures registerActive ==>
        (d.Some? <==> AllFlags(strength) && password == confirmPassword)
      ensures registerActive && Valid() ==>
        (d.Some? <==> AllFlags(PageStrength(password)) && password == confirmPassword)
      ensures d.Some? && registerActive ==> d.value == Dispatch(Register, Payload(email, password, Some(confirmPassword)))
    {
      var form := Payload(email, password, Some(confirmPassword));
      if registerActive {
        if !AllFlags(strength) {
          return None;
        }
        if password != confirmPassword {
          return None;
        }
        return Some(Dispatch(Register, form));
      }
      return Some(Dispatch(Login, form));
    }
  }

  // ---------------------------------------------------------------------
  // The auth form

  /** A rule of the auth form's table: a bracket expression, or `.{n,}`. */
  datatype Rule = Pattern(k: CharClass) | DotsAtLeast(n: nat)

  datatype Requirement = Requirement(id: string, rule: Rule)

  function Passes(r: Rule, p: string): bool
  {
    match r
    case Pattern(k) => Test(k, p)
    case DotsAtLeast(n) => DotRun(p, n)
  }

  const REQUIREMENTS: seq<Requirement> := [
    Requirement("length", DotsAtLeast(8)),
    Requirement("uppercase", Pattern(UPPER)),
    Requirement("lowercase", Pattern(LOWER)),
    Requirement("number", Pattern(DIGIT)),
    Requirement("special", Pattern(FORM_SPECIAL))
  ]

  /** The auth form's five rules, written out. */
  predicate FormStrong(p: string)
  {
    DotRun(p, 8) && Test(UPPER, p) && Test(LOWER, p) && Test(DIGIT, p) && Test(FORM_SPECIAL, p)
  }

  /** validatePassword of the auth form: the `strength` object gets one
      entry per requirement, in table order, and the answer is whether all
      of them passed. */
  method ValidatePassword(p: string) returns (strength: seq<Entry<string, bool>>, ok: bool)
    ensures |strength| == |REQUIREMENTS|
    ensures forall i :: 0 <= i < |strength| ==>
      strength[i] == Entry(REQUIREMENTS[i].id, Passes(REQUIREMENTS[i].rule, p))
    ensures ok <==> FormStrong(p)
  {
    strength := [];
    for i := 0 to |REQUIREMENTS|
      invariant |strength| == i
      invariant forall j :: 0 <= j < i ==> strength[j] == Entry(REQUIREMENTS[j].id, Passes(REQUIREMENTS[j].rule, p))
    {
      strength := strength + [Entry(REQUIREMENTS[i].id, Passes(REQUIREMENTS[i].rule, p))];
    }
    ok := forall i :: 0 <= i < |strength| ==> strength[i].value;
    assert ok <==> strength[0].value && strength[1].value && strength[2].value && strength[3].value && strength[4].value;
  }

  /** A refused submission with the message shown, or a dispatch. */
  datatype Gate = Refused(message: string) | Sent(dispatch: Dispatch)

  const PASSWORDS_DIFFER: string := "Passwords do not match"
  const TOO_WEAK: string := "Password does not meet requirements"

  /** handleSubmit of the auth form, up to the dispatch: signing in skips
      both checks; registering checks the confirmation first and the rules
      second. The error shown is cleared first, so a dispatch leaves it
      empty. */
  function FormSubmit(isLogin: bool, email: string, password: string, confirmPassword: string): (g: Gate)
    ensures isLogin ==> g == Sent(Dispatch(Login, Payload(email, password, Some(confirmPassword))))
    ensures !isLogin ==> (g.Sent? <==> password == confirmPassword && FormStrong(password))
    ensures !isLogin && password != confirmPassword ==> g == Refused(PASSWORDS_DIFFER)
    ensures !isLogin && password == confirmPassword && !FormStrong(password) ==> g == Refused(TOO_WEAK)
    ensures g.Sent? && !isLogin ==> g.dispatch == Dispatch(Register, Payload(email, password, Some(confirmPassword)))
  {
    if !isLogin && password != confirmPassword then Refused(PASSWORDS_DIFFER)
    else if !isLogin && !FormStrong(password) then Refused(TOO_WEAK)
    else Sent(Dispatch(if isLogin then Login else Register, Payload(email, password, Some(confirmPassword))))
  }

  /** The auth form's error once the dispatched action has settled: empty
      (and the success callback runs) when it was fulfilled, otherwise the
      text of the rejection. */
  function SettledError<D>(s: AuthSlice.Settled<D>): (e: string)
    ensures s.Fulfilled? ==> e == ""
    ensures s.Rejected? ==> e == s.reason
  {
    match s
    case Fulfilled(_) => ""
    case Rejected(reason) => reason
  }

  /** After a sign-in from the auth form, the error is empty exactly when
      the server answered with a token, and after a registration exactly
      when the server answered. */
  lemma SettledErrorShown(login: AuthSlice.Reply<AuthSlice.LoginData>, register: AuthSlice.Reply<Json>)
    ensures SettledError(AuthSlice.LoginThunk(login)) == "" <==> login.Answered? && AuthSlice.HasToken(login.data)
    ensures SettledError(AuthSlice.RegisterThunk(register)) == "" <==> register.Answered?
  {
  }

  // ---------------------------------------------------------------------
  // The register page

  const MISMATCH: string := "Passwords do not match!"
  const TOO_SHORT: string := "Password must be at least 6 characters long"

  /** handleSubmit of the register page: a mismatch wins over a short
      password, and the dispatch carries only the email and the password. */
  function RegisterSubmit(email: string, password: string, confirmPassword: string): (g: Gate)
    ensures g.Sent? <==> password == confirmPassword && |password| >= 6
    ensures password != confirmPassword ==> g == Refused(MISMATCH)
    ensures password == confirmPassword && |password| < 6 ==> g == Refused(TOO_SHORT)
    ensures g.Sent? ==> g.dispatch == Dispatch(Register, Payload(email, password, None))
  {
    if password != confirmPassword then Refused(MISMATCH)
    else if |password| < 6 then Refused(TOO_SHORT)
    else Sent(Dispatch(Register, Payload(email, password, None)))
  }

  /** The rule sets are nested: a password the auth form accepts also
      passes the auth page's five flags, and one that passes those is long
      enough for the register page. */
  lemma RuleSetsNest(p: string)
    ensures FormStrong(p) ==> AllFlags(PageStrength(p))
    ensures AllFlags(PageStrength(p)) ==> |p| >= 6
  {
    if FormStrong(p) {
      DotRunLength(p, 8);
      var i :| 0 <= i < |p| && InClass(p[i], FORM_SPECIAL);
      assert p[i] in "!@#$%^&*(),.?\":{}|<>";
    }
  }

  /** The converse fails: "Abcdefg1(" raises all five flags of the auth
      page but has none of the auth form's special characters. */
  lemma PageLooserThanForm()
    ensures AllFlags(PageStrength("Abcdefg1(")) && !FormStrong("Abcdefg1(")
  {
    var w := "Abcdefg1(";
    assert InClass(w[0], UPPER) && InClass(w[1], LOWER) && InClass(w[7], DIGIT) && InClass(w[8], PAGE_SPECIAL);
    forall i | 0 <= i < |w|
      ensures !InClass(w[i], FORM_SPECIAL)
    {
    }
  }
}
