/**
 * The signed-in user as the client keeps it, and the text it is cached as.
 * The application writes `JSON.stringify(user)` and reads it back with
 * `JSON.parse`; this model replaces JSON by a length-prefixed text format with
 * the same two promises: encoding then decoding gives the user back, and text
 * that is not the encoding of a user is rejected instead of read (numbers with
 * a leading zero included, as JSON rejects them).
 */
module UserCodec {
  import opened Basics
  import opened Text

  /** The fields the client reads from a user: its id, name, email and course access flag. */
  datatype User = User(id: nat, fullName: string, email: string, hasFormationAccess: bool)

  /** `n:` followed by `n` characters. */
  function EncodeField(s: string): string {
    Show(|s|) + ":" + s
  }

  function Encode(u: User): (t: string)
    ensures |t| > 0
  {
    Show(u.id) + ":" + (EncodeField(u.fullName) + (EncodeField(u.email) + (if u.hasFormationAccess then "1" else "0")))
  }

  /** Reads decimal digits, without a leading zero, up to the first `:`; returns the number and the text after the `:`. */
  function DecodeNat(t: string): (r: Option<(nat, string)>)
    ensures r.Some? ==> |r.value.1| < |t| && t[|t| - |r.value.1|..] == r.value.1
  {
    var head := BeforeChar(t, ':');
    if |head| < |t| && (|head| <= 1 || head[0] != '0') then
      match Parse(head)
      case Some(n) => Some((n, t[|head| + 1..]))
      case None => None
    else None
  }

  function DecodeField(t: string): (r: Option<(string, string)>)
    ensures r.Some? ==> |r.value.0| + |r.value.1| < |t|
  {
    match DecodeNat(t)
    case Some((n, rest)) =>
      if n <= |rest| then Some((rest[..n], rest[n..]))
      else None
    case None => None
  }

  /** `JSON.parse` of cached user text: `None` where the parse would throw. */
  function Decode(t: string): Option<User> {
    match DecodeNat(t)
    case None => None
    case Some((id, r1)) =>
      match DecodeField(r1)
      case None => None
      case Some((name, r2)) =>
        match DecodeField(r2)
        case None => None
        case Some((email, r3)) =>
          if r3 == "1" then Some(User(id, name, email, true))
          else if r3 == "0" then Some(User(id, name, email, false))
          else None
  }

  lemma DecodeNatShow(n: nat, rest: string)
    ensures DecodeNat(Show(n) + ":" + rest) == Some((n, rest))
  {
    var s := Show(n);
    assert ':' !in s by {
      forall i | 0 <= i < |s| ensures s[i] != ':' {
        assert IsDigit(s[i]);
      }
    }
    BeforeCharStops(s, ':', rest);
    ParseShow(n);
    assert (s + ":" + rest)[|s| + 1..] == rest;
  }

  lemma DecodeFieldEncode(s: string, rest: string)
    ensures DecodeField(EncodeField(s) + rest) == Some((s, rest))
  {
    assert EncodeField(s) + rest == Show(|s|) + ":" + (s + rest);
    DecodeNatShow(|s|, s + rest);
    assert (s + rest)[..|s|] == s && (s + rest)[|s|..] == rest;
  }

  /** Caching a user and reading it back gives the same user. */
  lemma DecodeEncode(u: User)
    ensures Decode(Encode(u)) == Some(u)
  {
    var flag := if u.hasFormationAccess then "1" else "0";
    var r2 := EncodeField(u.email) + flag;
    var r1 := EncodeField(u.fullName) + r2;
    DecodeNatShow(u.id, r1);
    DecodeFieldEncode(u.fullName, r2);
    DecodeFieldEncode(u.email, flag);
    DecodeSteps(Encode(u), r1, r2, flag, u);
  }

  lemma DecodeSteps(t: string, r1: string, r2: string, flag: string, u: User)
    requires DecodeNat(t) == Some((u.id, r1))
    requires DecodeField(r1) == Some((u.fullName, r2))
    requires DecodeField(r2) == Some((u.email, flag))
    requires flag == if u.hasFormationAccess then "1" else "0"
    ensures Decode(t) == Some(u)
  {
  }

  /** Text that is not a cached user, such as the empty text or plain words, is rejected. */
  lemma DecodeRejectsWords()
    ensures Decode("") == None && Decode("null") == None
  {
    assert BeforeChar("null", ':') == "null";
  }

  /** A number that reads is the text of that number, then `:`, then the rest. */
  lemma DecodeNatText(t: string)
    requires DecodeNat(t).Some?
    ensures t == Show(DecodeNat(t).value.0) + ":" + DecodeNat(t).value.1
  {
    var head := BeforeChar(t, ':');
    ShowDigitsValue(head);
    assert t == head + ":" + t[|head| + 1..];
  }

  /** A field that reads is its length-prefixed text, then the rest. */
  lemma DecodeFieldText(t: string)
    requires DecodeField(t).Some?
    ensures t == EncodeField(DecodeField(t).value.0) + DecodeField(t).value.1
  {
    DecodeNatText(t);
    var (n, rest) := DecodeNat(t).value;
    assert rest == rest[..n] + rest[n..];
  }

  /** Text reads as a user exactly when it is that user's encoding: no other text is accepted. */
  lemma DecodeOnlyEncodings(t: string, u: User)
    ensures Decode(t) == Some(u) <==> t == Encode(u)
  {
    if Decode(t) == Some(u) {
      var (id, r1) := DecodeNat(t).value;
      var (name, r2) := DecodeField(r1).value;
      var (email, r3) := DecodeField(r2).value;
      DecodeNatText(t);
      DecodeFieldText(r1);
      DecodeFieldText(r2);
      assert t == Show(id) + ":" + (EncodeField(name) + (EncodeField(email) + r3));
    }
    if t == Encode(u) {
      DecodeEncode(u);
    }
  }
}
