/** The signed cookie that carries state, code verifier and nonce of a single sign-on from the
    authorization request to the callback. The message authentication code is a parameter. */
module SignedCookie {

  /** The truncated hexadecimal digest of a value under the application's key. */
  type Mac = string -> string

  /** A digest of hexadecimal digits: ASCII, and without the separator. */
  ghost predicate IsHex(mac: Mac) {
    forall v :: IsAscii(mac(v)) && '.' !in mac(v)
  }

  predicate IsAscii(s: string) {
    forall i :: 0 <= i < |s| ==> s[i] < 128 as char
  }

  /** What checking a signature comes to: the constant-time comparison refuses text that is not ASCII
      with an exception. */
  datatype Check = Verified(value: string) | Rejected | Raises

  function Sign(mac: Mac, value: string): string {
    value + "." + mac(value)
  }

  /** The position of the first, and of the last, occurrence of a character. */
  function First(s: string, c: char): (i: nat)
    requires c in s
    ensures i < |s| && s[i] == c && c !in s[..i]
  {
    if s[0] == c then 0 else 1 + First(s[1..], c)
  }

  function Last(s: string, c: char): (i: nat)
    requires c in s
    ensures i < |s| && s[i] == c && c !in s[i + 1..]
  {
    if s[|s| - 1] == c then |s| - 1 else Last(s[..|s| - 1], c)
  }

  function Verify(mac: Mac, signed: string): Check {
    if '.' !in signed then Rejected
    else
      var i := Last(signed, '.');
      var value, signature := signed[..i], signed[i + 1..];
      if !IsAscii(signature) || !IsAscii(mac(value)) then Raises
      else if signature != mac(value) then Rejected
      else Verified(value)
  }

  /** At most `n` splits from the left, so at most `n + 1` parts. */
  function Split(s: string, c: char, n: nat): (parts: seq<string>)
    ensures 1 <= |parts| <= n + 1
  {
    if n == 0 || c !in s then [s]
    else
      var i := First(s, c);
      [s[..i]] + Split(s[i + 1..], c, n - 1)
  }

  function Join(parts: seq<string>, c: char): string {
    if parts == [] then ""
    else if |parts| == 1 then parts[0]
    else parts[0] + [c] + Join(parts[1..], c)
  }

  function Pack(mac: Mac, state: string, verifier: string, nonce: string): string {
    Sign(mac, state + ":" + verifier + ":" + nonce)
  }

  /** What the callback makes of the cookie and the `state` it was called with. */
  datatype Login = Continue(verifier: string, nonce: string) | InvalidState | Failure

  function Callback(mac: Mac, cookie: string, state: string): Login {
    if cookie == "" then InvalidState
    else
      match Verify(mac, cookie)
      case Raises => Failure
      case Rejected => InvalidState
      case Verified(data) =>
        if data == "" then InvalidState
        else
          var parts := Split(data, ':', 2);
          if |parts| != 3 then InvalidState
          else if !IsAscii(parts[0]) || !IsAscii(state) then Failure
          else if parts[0] != state then InvalidState
          else Continue(parts[1], parts[2])
  }

  // ---------------------------------------------------------------- the signature

  lemma LastUnique(s: string, c: char, i: nat)
    requires i < |s| && s[i] == c && c !in s[i + 1..]
    ensures c in s && Last(s, c) == i
  {
  }

  /** Checking accepts exactly what signing produces, with dots in the value or without. */
  lemma VerifyIffSigned(mac: Mac, signed: string, value: string)
    requires IsHex(mac)
    ensures Verify(mac, signed) == Verified(value) <==> signed == Sign(mac, value)
  {
    if signed == Sign(mac, value) {
      assert signed[|value|] == '.' && signed[|value| + 1..] == mac(value) && signed[..|value|] == value;
      LastUnique(signed, '.', |value|);
    }
    if Verify(mac, signed) == Verified(value) {
      var i := Last(signed, '.');
      assert signed == signed[..i] + "." + signed[i + 1..];
    }
  }

  // ---------------------------------------------------------------- the three parts

  lemma FirstUnique(s: string, c: char, i: nat)
    requires i < |s| && s[i] == c && c !in s[..i]
    ensures c in s && First(s, c) == i
  {
  }

  lemma JoinFirst(first: string, rest: seq<string>, c: char)
    requires rest != []
    ensures Join([first] + rest, c) == first + [c] + Join(rest, c)
  {
    assert ([first] + rest)[1..] == rest;
  }

  lemma JoinCut(s: string, i: nat, rest: seq<string>, c: char)
    requires i < |s| && s[i] == c && rest != [] && Join(rest, c) == s[i + 1..]
    ensures Join([s[..i]] + rest, c) == s
  {
    JoinFirst(s[..i], rest, c);
    assert s == s[..i] + [c] + s[i + 1..];
  }

  lemma {:induction false} JoinSplit(s: string, c: char, n: nat)
    ensures Join(Split(s, c, n), c) == s
  {
    if n == 0 || c !in s {
    } else {
      var i := First(s, c);
      var rest := Split(s[i + 1..], c, n - 1);
      JoinSplit(s[i + 1..], c, n - 1);
      JoinCut(s, i, rest, c);
      assert Split(s, c, n) == [s[..i]] + rest;
    }
  }

  lemma SplitOff(head: string, tail: string, c: char, n: nat)
    requires c !in head && n > 0
    ensures Split(head + [c] + tail, c, n) == [head] + Split(tail, c, n - 1)
  {
    var s := head + [c] + tail;
    assert s[|head|] == c && s[..|head|] == head && s[|head| + 1..] == tail;
    FirstUnique(s, c, |head|);
  }

  lemma PartsLackSeparator(s: string, c: char, n: nat, k: nat)
    requires k + 1 < |Split(s, c, n)|
    ensures c !in Split(s, c, n)[k]
  {
    if k > 0 {
      PartsLackSeparator(s[First(s, c) + 1..], c, n - 1, k - 1);
    }
  }

  /** The bounded split recovers exactly the three parts if and only if neither of the first two holds
      the separator; the third may. */
  lemma SplitRecovers(state: string, verifier: string, nonce: string)
    ensures Split(state + ":" + verifier + ":" + nonce, ':', 2) == [state, verifier, nonce]
       <==> ':' !in state && ':' !in verifier
  {
    var packed := state + ":" + verifier + ":" + nonce;
    if ':' !in state && ':' !in verifier {
      assert packed == state + [':'] + (verifier + [':'] + nonce);
      SplitOff(state, verifier + [':'] + nonce, ':', 2);
      SplitOff(verifier, nonce, ':', 1);
    } else if Split(packed, ':', 2) == [state, verifier, nonce] {
      PartsLackSeparator(packed, ':', 2, 0);
      PartsLackSeparator(packed, ':', 2, 1);
    }
  }

  // ---------------------------------------------------------------- the round trip

  /** The callback goes on with the verifier and nonce that were packed, for the packed state only. */
  lemma CookieRoundTrip(mac: Mac, state: string, verifier: string, nonce: string, presented: string)
    requires IsHex(mac) && ':' !in state && ':' !in verifier && IsAscii(state)
    ensures Callback(mac, Pack(mac, state, verifier, nonce), presented)
         == if !IsAscii(presented) then Failure
            else if presented == state then Continue(verifier, nonce) else InvalidState
  {
    VerifyIffSigned(mac, Pack(mac, state, verifier, nonce), state + ":" + verifier + ":" + nonce);
    SplitRecovers(state, verifier, nonce);
  }

  lemma JoinThree(parts: seq<string>, a: string, b: string, c: string)
    requires parts == [a, b, c]
    ensures Join(parts, ':') == a + ":" + b + ":" + c
  {
    assert parts[1..] == [b, c] && parts[1..][1..] == [c];
    assert Join([c], ':') == c;
    assert Join([b, c], ':') == b + [':'] + c;
    assert a + [':'] + (b + [':'] + c) == a + ":" + b + ":" + c;
  }

  /** Conversely, the callback goes on only with a cookie that was packed from that state. */
  lemma OnlyPackedCookies(mac: Mac, cookie: string, state: string, verifier: string, nonce: string)
    requires IsHex(mac)
    ensures Callback(mac, cookie, state) == Continue(verifier, nonce)
       <==> cookie == Pack(mac, state, verifier, nonce) && ':' !in state && ':' !in verifier && IsAscii(state)
  {
    if cookie == Pack(mac, state, verifier, nonce) && ':' !in state && ':' !in verifier && IsAscii(state) {
      CookieRoundTrip(mac, state, verifier, nonce, state);
    }
    if Callback(mac, cookie, state) == Continue(verifier, nonce) {
      var data := Verify(mac, cookie).value;
      VerifyIffSigned(mac, cookie, data);
      var parts := Split(data, ':', 2);
      assert parts == [state, verifier, nonce];
      JoinSplit(data, ':', 2);
      JoinThree(parts, state, verifier, nonce);
      SplitRecovers(state, verifier, nonce);
    }
  }

  /** Text that is three parts with separators between them. */
  predicate IsThree(value: string, a: string, b: string, c: string) {
    value == a + ":" + b + ":" + c
  }

  lemma SplitThree(value: string) returns (parts: seq<string>)
    ensures parts == Split(value, ':', 2)
    ensures |parts| == 3 ==> IsThree(value, parts[0], parts[1], parts[2]) && ':' !in parts[0] && ':' !in parts[1]
    ensures |parts| != 3 ==> forall a, b, c :: !IsThree(value, a, b, c)
  {
    parts := Split(value, ':', 2);
    JoinSplit(value, ':', 2);
    if |parts| == 3 {
      JoinThree(parts, parts[0], parts[1], parts[2]);
      PartsLackSeparator(value, ':', 2, 0);
      PartsLackSeparator(value, ':', 2, 1);
    } else {
      forall a, b, c
        ensures !IsThree(value, a, b, c)
      {
        if IsThree(value, a, b, c) {
          ThreeParts(a, b, c);
        }
      }
    }
  }

  lemma ThreeParts(a: string, b: string, c: string)
    ensures |Split(a + ":" + b + ":" + c, ':', 2)| == 3
  {
    var value := a + ":" + b + ":" + c;
    assert value[|a|] == ':';
    var i := First(value, ':');
    var rest := value[i + 1..];
    if i < |a| {
      assert rest[|a| - i - 1] == ':';
    } else {
      assert i == |a|;
      assert rest[|b|] == ':';
    }
  }

  /** What the callback answers, for every cookie. A cookie without a signature, an empty one included,
      is an invalid state. So is a forged one, or, if its signature is not even ASCII, it is a failure. A
      signed one that is not three parts is an invalid state; of one that is, the first part must be
      the state that was presented, and a state that is not ASCII on either side is a failure. */
  lemma CallbackExact(mac: Mac, cookie: string, state: string)
    requires IsHex(mac)
    ensures '.' !in cookie ==> Callback(mac, cookie, state) == InvalidState
    ensures forall value, signature :: SignedBy(cookie, value, signature) && signature != mac(value) ==>
              Callback(mac, cookie, state) == if IsAscii(signature) then InvalidState else Failure
    ensures forall value :: SignedBy(cookie, value, mac(value)) && (forall a, b, c :: !IsThree(value, a, b, c)) ==>
              Callback(mac, cookie, state) == InvalidState
    ensures forall a, b, c :: Packs(mac, cookie, a, b, c) ==>
              Callback(mac, cookie, state)
              == if !IsAscii(a) || !IsAscii(state) then Failure else if a == state then Continue(b, c)
                 else InvalidState
  {
    forall value, signature | SignedBy(cookie, value, signature)
      ensures '.' in cookie && Last(cookie, '.') == |value|
      ensures cookie[..|value|] == value && cookie[|value| + 1..] == signature
    {
      assert cookie[|value|] == '.' && cookie[|value| + 1..] == signature && cookie[..|value|] == value;
      LastUnique(cookie, '.', |value|);
    }
    forall value | SignedBy(cookie, value, mac(value)) && (forall a, b, c :: !IsThree(value, a, b, c))
      ensures Callback(mac, cookie, state) == InvalidState
    {
      var parts := SplitThree(value);
    }
    forall a, b, c | Packs(mac, cookie, a, b, c)
      ensures Callback(mac, cookie, state)
           == if !IsAscii(a) || !IsAscii(state) then Failure else if a == state then Continue(b, c)
              else InvalidState
    {
      SplitRecovers(a, b, c);
      assert SignedBy(cookie, a + ":" + b + ":" + c, mac(a + ":" + b + ":" + c));
    }
  }

  /** The cookie is this value and this signature. */
  predicate SignedBy(cookie: string, value: string, signature: string) {
    cookie == value + "." + signature && '.' !in signature
  }

  /** The cookie is signed, and its value is these three parts. */
  predicate Packs(mac: Mac, cookie: string, state: string, verifier: string, nonce: string) {
    var value := state + ":" + verifier + ":" + nonce;
    cookie == value + "." + mac(value) && ':' !in state && ':' !in verifier
  }

  /** The characters of a code verifier in section 4.1 of RFC 7636. */
  predicate IsUnreserved(s: string) {
    forall i :: 0 <= i < |s| ==>
      'a' <= s[i] <= 'z' || 'A' <= s[i] <= 'Z' || '0' <= s[i] <= '9' || s[i] in "-._~"
  }

  /** So the flow works for every verifier and state of unreserved characters, dots included. */
  lemma UnreservedRoundTrip(mac: Mac, state: string, verifier: string, nonce: string)
    requires IsHex(mac) && IsUnreserved(state) && IsUnreserved(verifier)
    ensures Callback(mac, Pack(mac, state, verifier, nonce), state) == Continue(verifier, nonce)
  {
    CookieRoundTrip(mac, state, verifier, nonce, state);
  }
}
