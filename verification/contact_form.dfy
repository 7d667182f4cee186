/** The contact form's submit-time validation: four ordered checks, the first failure wins. */
module ContactForm {
  import opened Wrappers
  import opened Text

  datatype Form = Form(
    name: string, email: string, phone: string,
    location: string, favoriteBand: string, comments: string)

  datatype FormError = MissingName | InvalidEmail | MissingPhone | MissingBand

  /** The message shown for each failure. */
  function Message(e: FormError): string {
    match e
    case MissingName => "Please enter your name"
    case InvalidEmail => "Please enter a valid email address"
    case MissingPhone => "Please enter your phone number"
    case MissingBand => "Please enter your favorite band"
  }

  /** Each failure has its own message, so the user can tell which check stopped the
      submission. */
  lemma MessagesDistinct(a: FormError, b: FormError)
    ensures Message(a) == Message(b) <==> a == b
  {
  }

  /** `s.trim()` is truthy. */
  predicate Filled(s: string) {
    Trim(s) != []
  }

  /** The one `@` of `e` is at index `at`. */
  ghost predicate OnlyAt(e: string, at: int) {
    0 <= at < |e| && e[at] == '@' && forall k :: 0 <= k < |e| && e[k] == '@' ==> k == at
  }

  /** The shape `/^[^\s@]+@[^\s@]+\.[^\s@]+$/` accepts: no whitespace, exactly one `@` with
      something before it, and after it a domain holding a `.` that is neither the domain's
      first nor its last character. */
  ghost predicate EmailShape(e: string) {
    && (forall k :: 0 <= k < |e| ==> !IsSpace(e[k]))
    && exists at :: OnlyAt(e, at) && at > 0
                 && exists j :: at + 1 < j < |e| - 1 && e[j] == '.'
  }

  /** The states of the matcher: nothing read, in the local part, just read the `@`, in the
      domain with no usable dot yet, a usable dot just read, a usable dot with text after it. */
  datatype Phase = Start | Local | AtSign | Domain | Dot | Done

  /** Runs the email pattern over `e` once, left to right. */
  method MatchEmail(e: string) returns (ok: bool)
    ensures ok <==> EmailShape(e)
  {
    var phase := Start;
    ghost var at := -1;
    var i := 0;
    while i < |e|
      invariant 0 <= i <= |e|
      invariant forall k :: 0 <= k < i ==> !IsSpace(e[k])
      invariant phase == Start <==> i == 0
      invariant phase == Local ==> forall k :: 0 <= k < i ==> e[k] != '@'
      invariant phase !in {Start, Local} ==>
        0 < at < i && e[at] == '@' && forall k :: 0 <= k < i && e[k] == '@' ==> k == at
      invariant phase == AtSign ==> i == at + 1
      invariant phase == Domain ==> i > at + 1 && forall j :: at + 1 < j < i ==> e[j] != '.'
      invariant phase == Dot ==>
        i - 1 > at + 1 && e[i - 1] == '.' && forall j :: at + 1 < j < i - 1 ==> e[j] != '.'
      invariant phase == Done ==> exists j :: at + 1 < j < i - 1 && e[j] == '.'
    {
      var c := e[i];
      if IsSpace(c) {
        assert !EmailShape(e);
        return false;
      }
      if c == '@' {
        if phase != Local {
          if phase == Start {
            LeadingAtRejected(e);
          } else {
            SecondAtRejected(e, at, i);
          }
          return false;
        }
        phase, at := AtSign, i;
      } else {
        match phase
        case Start => phase := Local;
        case Local =>
        case AtSign => phase := Domain;
        case Domain => if c == '.' { phase := Dot; }
        case Dot => phase := Done;
        case Done =>
      }
      i := i + 1;
    }
    ok := phase == Done;
    if ok {
      assert OnlyAt(e, at);
      ghost var j :| at + 1 < j < i - 1 && e[j] == '.';
      assert EmailShape(e);
    }
    if phase == Local {
      NoAtRejected(e);
    } else if phase in {AtSign, Domain, Dot} {
      NoUsableDotRejected(e, at);
    }
  }

  lemma LeadingAtRejected(e: string)
    requires |e| > 0 && e[0] == '@'
    ensures !EmailShape(e)
  {
  }

  lemma SecondAtRejected(e: string, p: int, q: int)
    requires 0 <= p < q < |e| && e[p] == '@' && e[q] == '@'
    ensures !EmailShape(e)
  {
  }

  lemma NoAtRejected(e: string)
    requires forall k :: 0 <= k < |e| ==> e[k] != '@'
    ensures !EmailShape(e)
  {
  }

  lemma NoUsableDotRejected(e: string, at: int)
    requires OnlyAt(e, at)
    requires forall j :: at + 1 < j < |e| - 1 ==> e[j] != '.'
    ensures !EmailShape(e)
  {
  }

  /** The failure the ordered checks report, or none: name, then email, then phone, then
      favourite band. */
  ghost function FirstFailure(f: Form): Option<FormError> {
    if !Filled(f.name) then Some(MissingName)
    else if !EmailShape(f.email) then Some(InvalidEmail)
    else if !Filled(f.phone) then Some(MissingPhone)
    else if !Filled(f.favoriteBand) then Some(MissingBand)
    else None
  }

  /** The validation block of `handleSubmit`. */
  method Validate(f: Form) returns (r: Option<FormError>)
    ensures r == FirstFailure(f)
    ensures r == None <==>
      Filled(f.name) && EmailShape(f.email) && Filled(f.phone) && Filled(f.favoriteBand)
    ensures r == Some(InvalidEmail) ==> Filled(f.name)
    ensures r == Some(MissingPhone) ==> Filled(f.name) && EmailShape(f.email)
    ensures r == Some(MissingBand) ==> Filled(f.name) && EmailShape(f.email) && Filled(f.phone)
  {
    if !Filled(f.name) {
      return Some(MissingName);
    }
    var emailOk := MatchEmail(f.email);
    if !emailOk {
      return Some(InvalidEmail);
    }
    if !Filled(f.phone) {
      return Some(MissingPhone);
    }
    if !Filled(f.favoriteBand) {
      return Some(MissingBand);
    }
    return None;
  }

  /** Location and comments are never checked. */
  lemma LocationAndCommentsUnchecked(f: Form, location: string, comments: string)
    ensures FirstFailure(f.(location := location, comments := comments)) == FirstFailure(f)
  {
  }

  /** A required field fails exactly when it holds nothing but whitespace. */
  lemma FilledMeansNonSpace(s: string)
    ensures Filled(s) <==> exists i :: 0 <= i < |s| && !IsSpace(s[i])
  {
    TrimNonEmpty(s);
  }
}
