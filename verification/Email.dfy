/** The e-mail value object: normalisation, then a pattern. */
module Email {
  import opened Wrappers

  predicate Letter(c: char) {
    'a' <= c <= 'z'
  }

  predicate LocalChar(c: char) {
    Letter(c) || '0' <= c <= '9' || c in "._%+-"
  }

  predicate DomainChar(c: char) {
    Letter(c) || '0' <= c <= '9' || c in ".-"
  }

  /** The pattern `^[a-z0-9._%+\-]+@[a-z0-9.\-]+\.[a-z]{2,4}$`, read as it is written: some place for
      the `@` and some place for the final dot split the text into the three classes. */
  ghost predicate Matches(s: string) {
    exists at: nat, dot: nat :: at < dot < |s| && SplitsAt(s, at, dot)
  }

  ghost predicate SplitsAt(s: string, at: nat, dot: nat)
    requires at < dot < |s|
  {
    && 0 < at && (forall i :: 0 <= i < at ==> s[i] in "abcdefghijklmnopqrstuvwxyz0123456789._%+-")
    && s[at] == '@'
    && at + 1 < dot && (forall i :: at < i < dot ==> s[i] in "abcdefghijklmnopqrstuvwxyz0123456789.-")
    && s[dot] == '.'
    && 2 <= |s| - dot - 1 <= 4 && (forall i :: dot < i < |s| ==> s[i] in "abcdefghijklmnopqrstuvwxyz")
  }

  lemma LettersListed(c: char)
    ensures c in "abcdefghijklmnopqrstuvwxyz" <==> Letter(c)
  {
    if Letter(c) {
      assert "abcdefghijklmnopqrstuvwxyz"[(c - 'a') as int] == c;
    }
  }

  lemma DigitsListed(c: char)
    ensures c in "0123456789" <==> '0' <= c <= '9'
  {
    if '0' <= c <= '9' {
      assert "0123456789"[(c - '0') as int] == c;
    }
  }

  lemma LocalListed(c: char)
    ensures c in "abcdefghijklmnopqrstuvwxyz0123456789._%+-" <==> LocalChar(c)
  {
    LettersListed(c);
    DigitsListed(c);
    assert "abcdefghijklmnopqrstuvwxyz0123456789._%+-" == "abcdefghijklmnopqrstuvwxyz" + "0123456789" + "._%+-";
  }

  lemma DomainListed(c: char)
    ensures c in "abcdefghijklmnopqrstuvwxyz0123456789.-" <==> DomainChar(c)
  {
    LettersListed(c);
    DigitsListed(c);
    assert "abcdefghijklmnopqrstuvwxyz0123456789.-" == "abcdefghijklmnopqrstuvwxyz" + "0123456789" + ".-";
  }

  /** The same split, by the classes of the recogniser. */
  ghost predicate ScansAt(s: string, at: nat, dot: nat)
    requires at < dot < |s|
  {
    && 0 < at && (forall i :: 0 <= i < at ==> LocalChar(s[i]))
    && s[at] == '@'
    && at + 1 < dot && (forall i :: at < i < dot ==> DomainChar(s[i]))
    && s[dot] == '.'
    && 2 <= |s| - dot - 1 <= 4 && (forall i :: dot < i < |s| ==> Letter(s[i]))
  }

  lemma SplitIsScan(s: string, at: nat, dot: nat)
    requires at < dot < |s|
    ensures SplitsAt(s, at, dot) <==> ScansAt(s, at, dot)
  {
    hide LocalChar, DomainChar, Letter;
    forall c
      ensures c in "abcdefghijklmnopqrstuvwxyz0123456789._%+-" <==> LocalChar(c)
      ensures c in "abcdefghijklmnopqrstuvwxyz0123456789.-" <==> DomainChar(c)
      ensures c in "abcdefghijklmnopqrstuvwxyz" <==> Letter(c)
    {
      LocalListed(c);
      DomainListed(c);
      LettersListed(c);
    }
  }

  /** State of a recogniser that looks at each character once: still before the `@`, with `read`
      characters seen; or after it, with `read` characters of the domain seen and, if the text since
      the last dot is all letters and that dot is not the first domain character, their number. */
  datatype Scan =
    | Local(read: nat)
    | Domain(read: nat, suffix: Option<nat>)
    | Reject

  function Next(state: Scan, c: char): Scan {
    match state
    case Reject => Reject
    case Local(n) =>
      if LocalChar(c) then Local(n + 1)
      else if c == '@' && n > 0 then Domain(0, None)
      else Reject
    case Domain(n, suffix) =>
      if c == '.' then Domain(n + 1, if n > 0 then Some(0) else None)
      else if Letter(c) then Domain(n + 1, if suffix.Some? then Some(suffix.value + 1) else None)
      else if DomainChar(c) then Domain(n + 1, None)
      else Reject
  }

  function ScanFrom(state: Scan, s: string): Scan
    decreases |s|
  {
    if s == "" then state else ScanFrom(Next(state, s[0]), s[1..])
  }

  predicate Accepts(state: Scan) {
    state.Domain? && state.suffix.Some? && 2 <= state.suffix.value <= 4
  }

  /** `emailRegex.MatchString`, in one pass. */
  predicate IsEmail(s: string) {
    Accepts(ScanFrom(Local(0), s))
  }

  lemma {:induction false} ScanSnoc(state: Scan, s: string, c: char)
    ensures ScanFrom(state, s + [c]) == Next(ScanFrom(state, s), c)
    decreases |s|
  {
    if s == "" {
      assert s + [c] == [c];
      assert ScanFrom(Next(state, c), []) == Next(state, c);
    } else {
      ScanSnoc(Next(state, s[0]), s[1..], c);
      assert (s + [c])[1..] == s[1..] + [c];
    }
  }

  /** What the state says about the text read so far. */
  ghost predicate Describes(state: Scan, s: string) {
    match state
    case Local(n) => n == |s| && forall i :: 0 <= i < |s| ==> LocalChar(s[i])
    case Domain(n, suffix) =>
      && n < |s| - 1
      && (forall i :: 0 <= i < |s| - 1 - n ==> LocalChar(s[i]))
      && s[|s| - 1 - n] == '@'
      && (forall i :: |s| - 1 - n < i < |s| ==> DomainChar(s[i]))
      && (match suffix
          case Some(k) =>
            && k + 2 <= n && s[|s| - 1 - k] == '.'
            && (forall i :: |s| - 1 - k < i < |s| ==> Letter(s[i]))
          case None => forall d :: |s| - n < d < |s| && s[d] == '.' ==> Broken(s, d))
    case Reject => !Viable(s)
  }

  /** The text after position `d` is not all letters. */
  ghost predicate Broken(s: string, d: nat)
    requires d < |s|
  {
    exists i :: d < i < |s| && !Letter(s[i])
  }

  /** Some continuation of the text could still match, as far as the characters read can tell. */
  ghost predicate Viable(s: string) {
    || (forall i :: 0 <= i < |s| ==> LocalChar(s[i]))
    || (exists at :: 0 < at < |s| && ViableAt(s, at))
  }

  ghost predicate ViableAt(s: string, at: nat)
    requires at < |s|
  {
    && s[at] == '@'
    && (forall i :: 0 <= i < at ==> LocalChar(s[i]))
    && (forall i :: at < i < |s| ==> DomainChar(s[i]))
  }

  lemma {:induction false} ScanDescribes(s: string)
    ensures Describes(ScanFrom(Local(0), s), s)
  {
    if s != "" {
      var t, c := s[..|s| - 1], s[|s| - 1];
      ScanDescribes(t);
      ScanSnoc(Local(0), t, c);
      assert t + [c] == s;
      NextDescribes(ScanFrom(Local(0), t), t, c);
    }
  }

  lemma NextDescribes(state: Scan, t: string, c: char)
    requires Describes(state, t)
    ensures Describes(Next(state, c), t + [c])
  {
    var s := t + [c];
    match state
    case Reject => RejectStays(t, c);
    case Local(n) =>
      if !LocalChar(c) && !(c == '@' && n > 0) {
        assert !LocalChar(s[|t|]);
        forall at | 0 < at < |s|
          ensures !ViableAt(s, at)
        {
          assert at < |t| ==> LocalChar(s[at]);
        }
      }
    case Domain(n, suffix) =>
      if !DomainChar(c) {
        DomainRejects(t, c, |t| - 1 - n);
      } else if suffix == None {
        StaysBroken(t, c, |t| - n);
      } else if c != '.' && !Letter(c) {
        BreaksAll(t, c);
      }
  }

  lemma StaysBroken(t: string, c: char, from: nat)
    requires forall d :: from < d < |t| && t[d] == '.' ==> Broken(t, d)
    ensures forall d :: from < d < |t| && t[d] == '.' ==> Broken(t + [c], d)
  {
    forall d | from < d < |t| && t[d] == '.'
      ensures Broken(t + [c], d)
    {
      var i :| d < i < |t| && !Letter(t[i]);
      assert !Letter((t + [c])[i]);
    }
  }

  lemma BreaksAll(t: string, c: char)
    requires !Letter(c)
    ensures forall d :: 0 <= d < |t| ==> Broken(t + [c], d)
  {
    assert !Letter((t + [c])[|t|]);
  }

  lemma RejectStays(t: string, c: char)
    requires !Viable(t)
    ensures !Viable(t + [c])
  {
    if Viable(t + [c]) {
      ViablePrefix(t, c);
    }
  }

  lemma ViablePrefix(t: string, c: char)
    requires Viable(t + [c])
    ensures Viable(t)
  {
    var s := t + [c];
    assert forall i :: 0 <= i < |t| ==> s[i] == t[i];
    if at :| 0 < at < |s| && ViableAt(s, at) {
      if at < |t| {
        assert ViableAt(t, at);
      }
    }
  }

  lemma DomainRejects(t: string, c: char, at: nat)
    requires 0 < at < |t| && ViableAt(t, at) && !DomainChar(c)
    ensures !Viable(t + [c])
  {
    var s := t + [c];
    assert s[at] == '@' && !LocalChar(s[at]) && !DomainChar(s[at]);
    assert s[|t|] == c;
    forall k | 0 < k < |s|
      ensures !ViableAt(s, k)
    {
      assert s[k] == '@' && k < |t| ==> !DomainChar(s[k]);
    }
  }

  /** The one-pass recogniser decides exactly the pattern. */
  lemma RecogniserIsPattern(s: string)
    ensures IsEmail(s) <==> Matches(s)
  {
    hide SplitsAt;
    ScanDescribes(s);
    var state := ScanFrom(Local(0), s);
    if Accepts(state) {
      var at, dot := |s| - 1 - state.read, |s| - 1 - state.suffix.value;
      assert ScansAt(s, at, dot);
      SplitIsScan(s, at, dot);
    }
    if Matches(s) {
      var at: nat, dot: nat :| at < dot < |s| && SplitsAt(s, at, dot);
      SplitIsScan(s, at, dot);
      PatternAccepted(s, at, dot);
    }
  }

  lemma PatternAccepted(s: string, at: nat, dot: nat)
    requires at < dot < |s| && ScansAt(s, at, dot)
    ensures IsEmail(s)
  {
    ScanDescribes(s);
    var state := ScanFrom(Local(0), s);
    assert ViableAt(s, at);
    assert !LocalChar('@') && !DomainChar('@') && !Letter('.');
    assert !LocalChar(s[at]);
    SameAt(s, at, |s| - 1 - state.read);
    assert !Broken(s, dot);
  }

  lemma SameAt(s: string, at: nat, a: nat)
    requires at < |s| && a < |s| && ViableAt(s, at) && ViableAt(s, a)
    ensures a == at
  {
    assert !LocalChar(s[at]) && !DomainChar(s[at]) && !LocalChar(s[a]) && !DomainChar(s[a]);
  }

  datatype Error = InvalidEmail

  /** Lower-casing followed by trimming. The Unicode tables they use are not part of the model. */
  type Normaliser = string -> string

  /** `NewEmail`. */
  function NewEmail(normalise: Normaliser, address: string): Result<string, Error> {
    var a := normalise(address);
    if IsEmail(a) then Ok(a) else Err(InvalidEmail)
  }

  /** Every text the pattern accepts is already lower-case ASCII without blanks, so normalising it
      changes nothing. */
  ghost predicate FixesEmails(normalise: Normaliser) {
    forall s :: IsEmail(s) ==> normalise(s) == s
  }

  /** A value that was accepted once is accepted again, unchanged; and only such values are ever
      returned. */
  lemma NewEmailIdempotent(normalise: Normaliser, address: string)
    requires FixesEmails(normalise)
    ensures NewEmail(normalise, address).Ok? <==> Matches(normalise(address))
    ensures NewEmail(normalise, address).Ok? ==>
              NewEmail(normalise, address).value == normalise(address)
              && Matches(NewEmail(normalise, address).value)
              && NewEmail(normalise, NewEmail(normalise, address).value) == NewEmail(normalise, address)
    ensures forall v :: NewEmail(normalise, v) == Ok(v) <==> Matches(v)
  {
    RecogniserIsPattern(normalise(address));
    forall v
      ensures NewEmail(normalise, v) == Ok(v) <==> Matches(v)
    {
      RecogniserIsPattern(v);
    }
  }
}
