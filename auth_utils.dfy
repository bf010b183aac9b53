/** Password and token helpers of the backend (backend/app/auth_utils.py):
    the 72-byte UTF-8 truncation applied before bcrypt hashing, the claim
    checks of `get_current_user`, and the payload `create_access_token` signs.
    bcrypt and JWT signing are foreign code: the hash is a function parameter,
    a signed token is represented by its payload, and signature and expiry
    checking is summarised by the decode outcome handed to `GetCurrentUser`. */
module AuthUtils {
  import opened Common
  import opened Models

  newtype byte = x: int | 0 <= x < 256

  /** bcrypt reads at most this many bytes of a password. */
  const BcryptMaxBytes: nat := 72
  const AccessTokenExpireMinutes: int := 30

  // ---------------------------------------------------------------------
  // UTF-8

  /** The UTF-8 encoding of one Unicode scalar value. */
  function CharBytes(c: char): (r: seq<byte>)
    ensures 1 <= |r| <= 4
  {
    var n := c as int;
    if n < 0x80 then [n as byte]
    else if n < 0x800 then [(0xC0 + n / 64) as byte, (0x80 + n % 64) as byte]
    else if n < 0x10000 then
      [(0xE0 + n / 4096) as byte, (0x80 + (n / 64) % 64) as byte, (0x80 + n % 64) as byte]
    else
      [(0xF0 + n / 262144) as byte, (0x80 + (n / 4096) % 64) as byte,
       (0x80 + (n / 64) % 64) as byte, (0x80 + n % 64) as byte]
  }

  /** `s.encode("utf-8")` */
  function Encode(s: string): seq<byte>
    decreases |s|
  {
    if s == [] then [] else CharBytes(s[0]) + Encode(s[1..])
  }

  /** Number of bytes of the sequence a lead byte starts, 0 for a byte that
      cannot start one (a continuation byte, C0, C1, F5..FF). */
  function SequenceLength(b: byte): nat {
    if b < 0x80 then 1
    else if 0xC2 <= b <= 0xDF then 2
    else if 0xE0 <= b <= 0xEF then 3
    else if 0xF0 <= b <= 0xF4 then 4
    else 0
  }

  /** Whether `b` may stand at position `k >= 1` of a sequence led by `lead`
      (the table of well-formed byte sequences of the Unicode standard,
      which rules out overlong forms, surrogates and values above 10FFFF). */
  predicate ContinuationOk(lead: byte, k: nat, b: byte) {
    if k == 1 && lead == 0xE0 then 0xA0 <= b <= 0xBF
    else if k == 1 && lead == 0xED then 0x80 <= b <= 0x9F
    else if k == 1 && lead == 0xF0 then 0x90 <= b <= 0xBF
    else if k == 1 && lead == 0xF4 then 0x80 <= b <= 0x8F
    else 0x80 <= b <= 0xBF
  }

  /** Length of the maximal well-formed start of a sequence of announced
      length `n` beginning at `bs[0]`, counting from position `k`. */
  function ValidRun(bs: seq<byte>, n: nat, k: nat): (r: nat)
    requires 1 <= k <= n && k <= |bs|
    ensures k <= r <= n && r <= |bs|
    ensures forall j :: k <= j < r ==> ContinuationOk(bs[0], j, bs[j])
    ensures r < n ==> r == |bs| || !ContinuationOk(bs[0], r, bs[r])
    decreases n - k
  {
    if k < n && k < |bs| && ContinuationOk(bs[0], k, bs[k]) then ValidRun(bs, n, k + 1) else k
  }

  /** A complete, well-formed encoding of one scalar value. */
  ghost predicate WellFormedChar(bs: seq<byte>) {
    && |bs| >= 1
    && SequenceLength(bs[0]) == |bs|
    && forall k :: 1 <= k < |bs| ==> ContinuationOk(bs[0], k, bs[k])
  }

  /** The scalar value a well-formed sequence encodes. */
  function ScalarOf(bs: seq<byte>): char
    requires WellFormedChar(bs)
  {
    var b0 := bs[0] as int;
    if |bs| == 1 then b0 as char
    else if |bs| == 2 then ((b0 - 0xC0) * 64 + (bs[1] as int - 0x80)) as char
    else if |bs| == 3 then
      assert ContinuationOk(bs[0], 1, bs[1]) && ContinuationOk(bs[0], 2, bs[2]);
      ((b0 - 0xE0) * 4096 + (bs[1] as int - 0x80) * 64 + (bs[2] as int - 0x80)) as char
    else
      assert ContinuationOk(bs[0], 1, bs[1]) && ContinuationOk(bs[0], 2, bs[2]) && ContinuationOk(bs[0], 3, bs[3]);
      ((b0 - 0xF0) * 262144 + (bs[1] as int - 0x80) * 4096
        + (bs[2] as int - 0x80) * 64 + (bs[3] as int - 0x80)) as char
  }

  /** `bs.decode("utf-8", errors="ignore")`: every byte that is not part of a
      complete well-formed sequence is dropped, including an incomplete
      sequence at the end. */
  function DecodeIgnore(bs: seq<byte>): string
    decreases |bs|
  {
    if bs == [] then []
    else
      var n := SequenceLength(bs[0]);
      if n == 0 then DecodeIgnore(bs[1..])
      else
        var v := ValidRun(bs, n, 1);
        if v == n then
          assert WellFormedChar(bs[..n]);
          [ScalarOf(bs[..n])] + DecodeIgnore(bs[n..])
        else DecodeIgnore(bs[v..])
  }

  /** The password bcrypt is given:
      `password.encode("utf-8")[:72].decode("utf-8", errors="ignore")`. */
  function TruncatePassword(password: string): string {
    DecodeIgnore(Take(Encode(password), BcryptMaxBytes))
  }

  /** `get_password_hash`: the (foreign) bcrypt hash of the truncated password. */
  function GetPasswordHash(password: string, bcryptHash: string -> string): (h: string)
    ensures TruncatePassword(password) == password ==> h == bcryptHash(password)
  {
    bcryptHash(TruncatePassword(password))
  }

  /** Number of leading characters of `s` whose whole encoding fits in `k` bytes. */
  function FitChars(s: string, k: nat): (j: nat)
    ensures j <= |s|
    decreases |s|
  {
    if s == [] || |CharBytes(s[0])| > k then 0
    else 1 + FitChars(s[1..], k - |CharBytes(s[0])|)
  }

  lemma {:induction false} EncodeAppend(a: string, b: string)
    ensures Encode(a + b) == Encode(a) + Encode(b)
    decreases |a|
  {
    if a == [] {
      assert a + b == b;
    } else {
      assert (a + b)[1..] == a[1..] + b;
      EncodeAppend(a[1..], b);
    }
  }

  lemma CharBytesShape(c: char)
    ensures var bs := CharBytes(c);
      SequenceLength(bs[0]) == |bs| && forall k :: 1 <= k < |bs| ==> ContinuationOk(bs[0], k, bs[k])
  {
    var n := c as int;
    if n >= 0x800 && n < 0x10000 {
      assert n / 4096 < 16;
      assert n / 4096 == 13 ==> n < 0xD800;
      assert n / 4096 == 13 ==> (n / 64) % 64 < 32;
      assert n / 4096 == 0 ==> (n / 64) % 64 >= 32;
    } else if n >= 0x10000 {
      assert n / 262144 <= 4;
      assert n / 262144 == 0 ==> (n / 4096) % 64 >= 16;
      assert n / 262144 == 4 ==> (n / 4096) % 64 < 16;
    }
  }

  lemma Split64(n: nat)
    ensures n == (n / 64) * 64 + n % 64
    ensures n / 4096 == (n / 64) / 64
    ensures n / 262144 == (n / 4096) / 64
  {
  }

  lemma ScalarOfCharBytes(c: char)
    ensures WellFormedChar(CharBytes(c)) && ScalarOf(CharBytes(c)) == c
  {
    CharBytesShape(c);
    var n := c as int;
    var cb := CharBytes(c);
    Split64(n);
    Split64(n / 64);
    Split64(n / 4096);
    if n < 0x80 {
    } else if n < 0x800 {
      assert cb[0] as int - 0xC0 == n / 64 && cb[1] as int - 0x80 == n % 64;
    } else if n < 0x10000 {
      assert cb[0] as int - 0xE0 == n / 4096;
      assert cb[1] as int - 0x80 == (n / 64) % 64 && cb[2] as int - 0x80 == n % 64;
      assert (n / 4096) * 4096 + ((n / 64) % 64) * 64 + n % 64 == n;
    } else {
      assert cb[0] as int - 0xF0 == n / 262144;
      assert cb[1] as int - 0x80 == (n / 4096) % 64;
      assert cb[2] as int - 0x80 == (n / 64) % 64 && cb[3] as int - 0x80 == n % 64;
      assert (n / 262144) * 262144 + ((n / 4096) % 64) * 4096 + ((n / 64) % 64) * 64 + n % 64 == n;
    }
  }

  /** Decoding consumes exactly the bytes of a complete character. */
  lemma DecodeCharBytes(c: char, rest: seq<byte>)
    ensures DecodeIgnore(CharBytes(c) + rest) == [c] + DecodeIgnore(rest)
  {
    var cb := CharBytes(c);
    var bs := cb + rest;
    CharBytesShape(c);
    ScalarOfCharBytes(c);
    var n := |cb|;
    assert bs[0] == cb[0];
    assert forall k :: 1 <= k < n ==> bs[k] == cb[k];
    var v := ValidRun(bs, n, 1);
    assert v == n;
    assert bs[..n] == cb;
    assert bs[n..] == rest;
  }

  /** A character cut short at the end of the input decodes to nothing. */
  lemma DecodeCutChar(c: char, k: nat)
    requires k < |CharBytes(c)|
    ensures DecodeIgnore(CharBytes(c)[..k]) == []
  {
    if k > 0 {
      var cb := CharBytes(c);
      var bs := cb[..k];
      CharBytesShape(c);
      var n := SequenceLength(bs[0]);
      assert n == |cb|;
      var v := ValidRun(bs, n, 1);
      assert v == k;
      assert bs[v..] == [];
    }
  }

  /** Decoding a byte prefix of a valid encoding gives back the characters
      that fit entirely inside it. */
  lemma {:induction false} DecodeEncodedPrefix(s: string, k: nat)
    ensures DecodeIgnore(Take(Encode(s), k)) == s[..FitChars(s, k)]
    decreases |s|
  {
    if s == [] {
    } else {
      var cb := CharBytes(s[0]);
      var L := |cb|;
      assert Encode(s) == cb + Encode(s[1..]);
      if L > k {
        assert Take(Encode(s), k) == cb[..k];
        DecodeCutChar(s[0], k);
      } else {
        assert Take(Encode(s), k) == cb + Take(Encode(s[1..]), k - L);
        DecodeCharBytes(s[0], Take(Encode(s[1..]), k - L));
        DecodeEncodedPrefix(s[1..], k - L);
        assert [s[0]] + s[1..][..FitChars(s[1..], k - L)] == s[..FitChars(s, k)];
      }
    }
  }

  /** FitChars really is the longest prefix that fits in `k` bytes. */
  lemma {:induction false} FitCharsBound(s: string, k: nat)
    ensures |Encode(s[..FitChars(s, k)])| <= k
    ensures FitChars(s, k) < |s| ==> |Encode(s[..FitChars(s, k) + 1])| > k
    decreases |s|
  {
    if s != [] {
      var L := |CharBytes(s[0])|;
      var j := FitChars(s, k);
      if L > k {
        assert s[..1] == [s[0]] + [];
        assert Encode(s[..1]) == CharBytes(s[0]) + Encode([]);
      } else {
        FitCharsBound(s[1..], k - L);
        var j' := FitChars(s[1..], k - L);
        assert s[..j] == [s[0]] + s[1..][..j'];
        assert Encode(s[..j]) == CharBytes(s[0]) + Encode(s[1..][..j']);
        if j < |s| {
          assert s[..j + 1] == [s[0]] + s[1..][..j' + 1];
          assert Encode(s[..j + 1]) == CharBytes(s[0]) + Encode(s[1..][..j' + 1]);
        }
      }
    }
  }

  lemma {:induction false} FitCharsWhole(s: string, k: nat)
    requires FitChars(s, k) == |s|
    ensures |Encode(s)| <= k
    decreases |s|
  {
    if s != [] {
      assert Encode(s) == CharBytes(s[0]) + Encode(s[1..]);
      FitCharsWhole(s[1..], k - |CharBytes(s[0])|);
    }
  }

  lemma {:induction false} FitCharsAll(s: string, k: nat)
    requires |Encode(s)| <= k
    ensures FitChars(s, k) == |s|
    decreases |s|
  {
    if s != [] {
      assert Encode(s) == CharBytes(s[0]) + Encode(s[1..]);
      FitCharsAll(s[1..], k - |CharBytes(s[0])|);
    }
  }

  /** The truncated password is a prefix of the password, its encoding is a
      prefix of the password's encoding and at most 72 bytes long, and the
      next character (if any) would not have fitted. */
  lemma TruncatePasswordPrefix(password: string)
    ensures var t := TruncatePassword(password);
      && |t| <= |password| && t == password[..|t|]
      && IsPrefixBytes(Encode(t), Encode(password))
      && |Encode(t)| <= BcryptMaxBytes
      && (|t| < |password| ==> |Encode(password[..|t| + 1])| > BcryptMaxBytes)
  {
    DecodeEncodedPrefix(password, BcryptMaxBytes);
    FitCharsBound(password, BcryptMaxBytes);
    var j := FitChars(password, BcryptMaxBytes);
    assert password == password[..j] + password[j..];
    EncodeAppend(password[..j], password[j..]);
  }

  predicate IsPrefixBytes(p: seq<byte>, s: seq<byte>) {
    |p| <= |s| && s[..|p|] == p
  }

  /** A password whose encoding fits in 72 bytes reaches bcrypt unchanged. */
  lemma TruncateShortPassword(password: string)
    requires |Encode(password)| <= BcryptMaxBytes
    ensures TruncatePassword(password) == password
  {
    DecodeEncodedPrefix(password, BcryptMaxBytes);
    FitCharsAll(password, BcryptMaxBytes);
  }

  /** Truncating twice is truncating once. */
  lemma TruncateIdempotent(password: string)
    ensures TruncatePassword(TruncatePassword(password)) == TruncatePassword(password)
  {
    TruncatePasswordPrefix(password);
    TruncateShortPassword(TruncatePassword(password));
  }

  /** When the encoding is longer than 72 bytes, byte 72 falls inside (or
      just after) one character: the 72 bytes are the encoding of the kept
      characters followed by a proper prefix of that character's encoding,
      and `errors="ignore"` drops exactly that incomplete character. */
  lemma TruncateDropsOnlyCutChar(password: string)
    requires |Encode(password)| > BcryptMaxBytes
    ensures var t := TruncatePassword(password);
      && |t| < |password|
      && |Encode(t)| <= BcryptMaxBytes < |Encode(t)| + |CharBytes(password[|t|])|
      && Take(Encode(password), BcryptMaxBytes)
         == Encode(t) + CharBytes(password[|t|])[..BcryptMaxBytes - |Encode(t)|]
  {
    var j := FitChars(password, BcryptMaxBytes);
    DecodeEncodedPrefix(password, BcryptMaxBytes);
    FitCharsBound(password, BcryptMaxBytes);
    if j == |password| {
      FitCharsWhole(password, BcryptMaxBytes);
    }
    var t := password[..j];
    assert TruncatePassword(password) == t;
    var c := password[j];
    var et, cb, rest := Encode(t), CharBytes(c), Encode(password[j + 1..]);
    assert password[..j + 1] == t + [c];
    EncodeAppend(t, [c]);
    assert Encode([c]) == cb + Encode([]);
    assert Encode(password[..j + 1]) == et + cb;
    assert password == (t + [c]) + password[j + 1..];
    EncodeAppend(t + [c], password[j + 1..]);
    var e := Encode(password);
    assert e == et + cb + rest;
    assert Take(e, BcryptMaxBytes) == e[..BcryptMaxBytes];
    assert e[..BcryptMaxBytes] == et + cb[..BcryptMaxBytes - |et|];
  }

  /** Decoding undoes encoding. */
  lemma DecodeEncode(s: string)
    ensures DecodeIgnore(Encode(s)) == s
  {
    DecodeEncodedPrefix(s, |Encode(s)|);
    FitCharsAll(s, |Encode(s)|);
  }

  // ---------------------------------------------------------------------
  // Tokens

  /** A claim value of a JWT payload. */
  datatype Claim = Str(s: string) | Num(n: int) | Null

  type Claims = map<string, Claim>

  /** A signed JWT, represented by the payload it carries. */
  datatype AccessToken = Signed(payload: Claims)

  const CredentialsError := HttpError(401, "Could not validate credentials")

  /** `create_access_token(data, expires_delta)` at time `now` (seconds):
      the caller's claims plus "exp"; a missing or zero delta (both falsy)
      means 30 minutes. */
  function CreateAccessToken(data: Claims, expiresDelta: Option<int>, now: int): (t: AccessToken)
    ensures t.payload.Keys == data.Keys + {"exp"}
    ensures forall k :: k in data && k != "exp" ==> t.payload[k] == data[k]
    ensures expiresDelta.None? || expiresDelta.value == 0 ==> t.payload["exp"] == Num(now + AccessTokenExpireMinutes * 60)
    ensures expiresDelta.Some? && expiresDelta.value != 0 ==> t.payload["exp"] == Num(now + expiresDelta.value)
  {
    var delta := if expiresDelta.Some? && expiresDelta.value != 0 then expiresDelta.value
                 else AccessTokenExpireMinutes * 60;
    Signed(data["exp" := Num(now + delta)])
  }

  /** `get_current_user`: `decoded` is what `jwt.decode` gives for the bearer
      token (None when it raises JWTError: bad signature, malformed, expired,
      or a "sub" claim that is not a string, which the decoder's own claim
      check refuses). A missing "sub", a refused token and an unknown email
      all give the one 401.
      The result is the index of the caller's row. */
  function GetCurrentUser(decoded: Option<Claims>, users: seq<User>): (r: Result<nat>)
    ensures r.Ok? ==> r.value < |users|
    ensures r.Ok? <==> decoded.Some? && "sub" in decoded.value && decoded.value["sub"].Str?
                       && FindByEmail(users, decoded.value["sub"].s).Some?
    ensures r.Ok? ==> users[r.value].email == decoded.value["sub"].s
    ensures r.Err? ==> r.error == CredentialsError
  {
    match decoded
    case None => Err(CredentialsError)
    case Some(payload) =>
      if "sub" !in payload || !payload["sub"].Str? then Err(CredentialsError)
      else match FindByEmail(users, payload["sub"].s)
        case None => Err(CredentialsError)
        case Some(i) => Ok(i)
  }

  /** A payload without "sub" and a subject no user has are refused alike. */
  lemma MissingSubjectAndUnknownUserAlike(payload: Claims, email: string, users: seq<User>)
    requires "sub" !in payload
    requires FindByEmail(users, email).None?
    ensures GetCurrentUser(Some(payload), users) == GetCurrentUser(Some(map["sub" := Str(email)]), users)
    ensures GetCurrentUser(Some(payload), users) == Err(CredentialsError)
  {
  }

  /** A token made by CreateAccessToken for a registered email identifies its user. */
  lemma CreatedTokenAuthenticates(users: seq<User>, i: nat, delta: Option<int>, now: int)
    requires i < |users| && UsersUnique(users)
    ensures var t := CreateAccessToken(map["sub" := Str(users[i].email)], delta, now);
      GetCurrentUser(Some(t.payload), users) == Ok(i)
  {
    var t := CreateAccessToken(map["sub" := Str(users[i].email)], delta, now);
    assert t.payload["sub"] == Str(users[i].email);
    var r := FindByEmail(users, users[i].email);
    assert r.Some?;
  }
}
