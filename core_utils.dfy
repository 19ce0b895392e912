/**
  The server's small utilities: the signed-URL check for publish and play
  (`expiry-digest`, where the digest is the MD5 of `path-expiry-secret`), the
  session-id and relay-name generators that draw from `Math.random`, and the
  ffmpeg download page per platform.

  MD5 is a parameter `md5` from text to its lower-case hex digest. The clock is
  a parameter in milliseconds. `Math.random` is an oracle `random` that gives
  the k-th draw of the run, always in [0, 1). The generators take the index of
  their first draw and return the index after their last.
*/
module CoreUtils {
  import opened JsText

  // ---------------------------------------------------------------------------
  // Signed URLs
  // ---------------------------------------------------------------------------

  /** `Date.now() / 1000 | 0`: whole seconds since the epoch, truncated to 32 bits. */
  function UnixSeconds(nowMs: nat): (s: int)
    ensures nowMs < 0x8000_0000 * 1000 ==> s == nowMs / 1000
  {
    ToInt32(nowMs / 1000)
  }

  /** `exp < now`, which is false when the expiry did not parse (NaN). */
  predicate Expired(exp: JsNumber, now: int) {
    exp.Num? && exp.value < now
  }

  /** The text the digest is computed over: `streamId + '-' + exp + '-' + secretKey`. */
  function SignedText(streamId: string, exp: JsNumber, secretKey: string): string {
    streamId + "-" + NumberToString(exp) + "-" + secretKey
  }

  /**
    `verifyAuth(signStr, streamId, secretKey)`. An absent signature fails. The
    expiry is `parseInt` of the text before the first '-', the digest the text
    between the first and the second '-' (absent when there is no '-'). An
    expiry in the past fails; otherwise the digest must equal the MD5 of the
    signed text built from the parsed expiry.
  */
  function VerifyAuth(signStr: Option<string>, streamId: string, secretKey: string,
                      nowMs: nat, md5: string -> string): (ok: bool)
    ensures signStr.None? ==> !ok
    ensures ok ==> '-' in signStr.value
    ensures ok ==> !Expired(ParseInt(Split(signStr.value, '-')[0]), UnixSeconds(nowMs))
  {
    match signStr
    case None => false
    case Some(sign) =>
      var fields := Split(sign, '-');
      var exp := ParseInt(fields[0]);
      if Expired(exp, UnixSeconds(nowMs)) then false
      else if |fields| < 2 then false
      else
        JoinSplit(sign, '-');
        fields[1] == md5(SignedText(streamId, exp, secretKey))
  }

  /** The signature a client appends for `streamId`, valid up to second `exp`. */
  function Sign(streamId: string, exp: nat, secretKey: string, md5: string -> string): (sign: string)
    ensures '-' in sign
  {
    NatToString(exp) + "-" + md5(streamId + "-" + NatToString(exp) + "-" + secretKey)
  }

  /**
    A signature `exp-digest` followed by anything that starts with '-' (or by
    nothing) passes exactly when `exp` has not passed and the digest is the MD5
    of `streamId-exp-secret`: the text after a second '-' is ignored, and an
    expiry equal to the current second is accepted.
  */
  lemma VerifyAuthSigned(streamId: string, exp: nat, digest: string, tail: string,
                         secretKey: string, nowMs: nat, md5: string -> string)
    requires '-' !in digest
    requires tail == [] || tail[0] == '-'
    ensures VerifyAuth(Some(NatToString(exp) + "-" + digest + tail), streamId, secretKey, nowMs, md5)
         == (exp >= UnixSeconds(nowMs) && digest == md5(streamId + "-" + NatToString(exp) + "-" + secretKey))
  {
    var e := NatToString(exp);
    NatToStringHasNoDash(exp);
    SignFields(e, digest, tail);
    ParseIntOfNatToString(exp);
    assert NumberToString(Num(exp)) == e;
  }

  lemma NatToStringHasNoDash(n: nat)
    ensures '-' !in NatToString(n)
  {
    var e := NatToString(n);
    assert forall i :: 0 <= i < |e| ==> RadixDigit(e[i], 10).Some?;
  }

  /** The first two '-'-separated fields of `e-digest` followed by `-...` or nothing. */
  lemma SignFields(e: string, digest: string, tail: string)
    requires '-' !in e && '-' !in digest
    requires tail == [] || tail[0] == '-'
    ensures var fields := Split(e + "-" + digest + tail, '-');
      |fields| >= 2 && fields[0] == e && fields[1] == digest
  {
    var sign := e + "-" + digest + tail;
    assert sign == e + ['-'] + (digest + tail);
    SplitFirstField(e, digest + tail, '-');
    if tail == [] {
      assert digest + tail == digest;
      SplitNoSeparator(digest, '-');
    } else {
      assert digest + tail == digest + ['-'] + tail[1..];
      SplitFirstField(digest, tail[1..], '-');
    }
  }

  /** A signature made with the right secret verifies until its expiry second. */
  lemma SignVerifies(streamId: string, exp: nat, secretKey: string, nowMs: nat, md5: string -> string)
    requires '-' !in md5(streamId + "-" + NatToString(exp) + "-" + secretKey)
    ensures VerifyAuth(Some(Sign(streamId, exp, secretKey, md5)), streamId, secretKey, nowMs, md5)
        <==> exp >= UnixSeconds(nowMs)
  {
    var digest := md5(streamId + "-" + NatToString(exp) + "-" + secretKey);
    VerifyAuthSigned(streamId, exp, digest, "", secretKey, nowMs, md5);
    assert Sign(streamId, exp, secretKey, md5) == NatToString(exp) + "-" + digest + "";
  }

  /** A signature without any '-' has no digest field and always fails. */
  lemma VerifyAuthNeedsDigest(sign: string, streamId: string, secretKey: string, nowMs: nat, md5: string -> string)
    requires '-' !in sign
    ensures !VerifyAuth(Some(sign), streamId, secretKey, nowMs, md5)
  {
  }

  /**
    An expiry that is not a number is never considered past: the check then
    compares the digest with the MD5 of `streamId-NaN-secret`.
  */
  lemma VerifyAuthNaNExpiry(streamId: string, digest: string, secretKey: string, nowMs: nat, md5: string -> string)
    requires '-' !in digest
    ensures VerifyAuth(Some("-" + digest), streamId, secretKey, nowMs, md5)
         == (digest == md5(streamId + "-NaN-" + secretKey))
  {
    var sign := "-" + digest;
    assert sign == [] + ['-'] + digest;
    SplitFirstField([], digest, '-');
    SplitNoSeparator(digest, '-');
    assert Split(sign, '-') == ["", digest];
    assert ParseInt("") == NaN;
    assert SignedText(streamId, NaN, secretKey) == streamId + "-NaN-" + secretKey;
  }

  // ---------------------------------------------------------------------------
  // Random identifiers
  // ---------------------------------------------------------------------------

  /**
    The session-id alphabet exactly as the server spells it: 'K' twice, no 'X'.
    Both alphabets are written in three pieces of twelve so that proofs about
    their characters stay small.
  */
  const SESSION_ID_CHARS := "ABCDEFGHIJKL" + "MNOPQRSTUVWK" + "YZ0123456789"
  const NAME_CHARS := "abcdefghijkl" + "mnopqrstuvwx" + "yz0123456789"

  /** A draw source: `random(k)` is the k-th value `Math.random()` returns. */
  ghost predicate IsRandomSource(random: nat -> real) {
    forall k :: 0.0 <= random(k) < 1.0
  }

  /** `possible.charAt((u * possible.length) | 0)` for one draw `u` in [0, 1). */
  function Pick(chars: string, u: real): (c: char)
    requires |chars| > 0 && 0.0 <= u < 1.0
    ensures c in chars
  {
    var k := (u * |chars| as real).Floor;
    assert 0 <= k < |chars| by {
      assert u * |chars| as real < |chars| as real;
    }
    chars[k]
  }

  /** The `n` characters drawn from `chars` with draws `from`, `from + 1`, ... */
  function Drawn(chars: string, random: nat -> real, from: nat, n: nat): (s: string)
    requires |chars| > 0 && IsRandomSource(random)
    ensures |s| == n
  {
    if n == 0 then [] else Drawn(chars, random, from, n - 1) + [Pick(chars, random(from + n - 1))]
  }

  /** Every drawn character is one of the alphabet's. */
  lemma {:induction false} DrawnFromAlphabet(chars: string, random: nat -> real, from: nat, n: nat)
    requires |chars| > 0 && IsRandomSource(random)
    ensures forall i :: 0 <= i < n ==> Drawn(chars, random, from, n)[i] in chars
  {
    if n > 0 {
      DrawnFromAlphabet(chars, random, from, n - 1);
    }
  }

  lemma DrawnStep(chars: string, random: nat -> real, from: nat, n: nat)
    requires |chars| > 0 && IsRandomSource(random)
    ensures Drawn(chars, random, from, n + 1) == Drawn(chars, random, from, n) + [Pick(chars, random(from + n))]
  {
  }

  /** Draws are consumed left to right: a longer run extends a shorter one. */
  lemma {:induction false} DrawnPrefix(chars: string, random: nat -> real, from: nat, m: nat, n: nat)
    requires |chars| > 0 && IsRandomSource(random)
    requires m <= n
    ensures Drawn(chars, random, from, n)[..m] == Drawn(chars, random, from, m)
  {
    if m < n {
      DrawnPrefix(chars, random, from, m, n - 1);
      assert Drawn(chars, random, from, n)[..n - 1] == Drawn(chars, random, from, n - 1);
    }
  }

  /** An upper bound on the length of the ids in a finite set. */
  ghost function MaxLength(ids: set<string>): (m: nat)
    ensures forall x :: x in ids ==> |x| <= m
  {
    if ids == {} then 0
    else
      var x :| x in ids;
      var m := MaxLength(ids - {x});
      if |x| > m then |x| else m
  }

  /**
    The loop both generators run: `count` times, append
    `possible.charAt((Math.random() * possible.length) | 0)` to the text.
    The text so far holds the draws from `base` on.
  */
  method AppendDraws(text: string, chars: string, random: nat -> real, ghost base: nat, from: nat, count: nat)
    returns (s: string, next: nat)
    requires |chars| > 0 && IsRandomSource(random)
    requires text == Drawn(chars, random, base, |text|) && from == base + |text|
    ensures s == Drawn(chars, random, base, |text| + count)
    ensures next == from + count
  {
    s := text;
    next := from;
    for i := 0 to count
      invariant |s| == |text| + i && next == from + i
      invariant s == Drawn(chars, random, base, |s|)
    {
      DrawnStep(chars, random, base, |s|);
      s := s + [Pick(chars, random(next))];
      next := next + 1;
    }
  }

  /**
    The retry loop of `generateNewSessionID()`: append eight characters drawn
    from `chars`, and again while the text so far is taken. The text is never
    reset between rounds, so the result is the shortest multiple-of-eight
    prefix of the draws that is not in `taken`.
  */
  method DrawUntilUnused(chars: string, taken: set<string>, random: nat -> real, from: nat)
    returns (id: string, next: nat)
    requires |chars| > 0 && IsRandomSource(random)
    ensures id !in taken
    ensures |id| > 0 && |id| % 8 == 0
    ensures id == Drawn(chars, random, from, |id|)
    ensures forall k :: 0 < k && 8 * k < |id| ==> id[..8 * k] in taken
    ensures next == from + |id|
  {
    ghost var bound := MaxLength(taken);
    ghost var rounds := 0;
    id := "";
    next := from;
    while true
      invariant |id| == 8 * rounds && next == from + |id|
      invariant id == Drawn(chars, random, from, |id|)
      invariant forall k :: 0 < k <= rounds ==> id[..8 * k] in taken
      invariant |id| <= bound + 8
      decreases bound + 8 - |id|
    {
      id, next := NextRound(chars, taken, random, from, id, next, rounds);
      rounds := rounds + 1;
      if id !in taken {
        return;
      }
      assert id[..8 * rounds] == id;
    }
  }

  /** One round of the retry loop: eight more draws, keeping the taken prefixes of the text so far. */
  method NextRound(chars: string, ghost taken: set<string>, random: nat -> real, from: nat, text: string, next: nat, ghost rounds: nat)
    returns (id: string, next': nat)
    requires |chars| > 0 && IsRandomSource(random)
    requires |text| == 8 * rounds && next == from + |text| && text == Drawn(chars, random, from, |text|)
    requires forall k :: 0 < k <= rounds ==> text[..8 * k] in taken
    ensures |id| == |text| + 8 && next' == from + |id| && id == Drawn(chars, random, from, |id|)
    ensures id[..|text|] == text
    ensures forall k :: 0 < k <= rounds ==> id[..8 * k] in taken
  {
    id, next' := AppendDraws(text, chars, random, from, next, 8);
    DrawnPrefix(chars, random, from, |text|, |id|);
    assert forall k :: 0 < k <= rounds ==> id[..8 * k] == text[..8 * k];
  }

  /** `generateNewSessionID()`: a fresh id for the `sessions` registry. */
  method GenerateNewSessionID(sessions: set<string>, random: nat -> real, from: nat)
    returns (id: string, next: nat)
    requires IsRandomSource(random)
    ensures id !in sessions
    ensures |id| > 0 && |id| % 8 == 0
    ensures id == Drawn(SESSION_ID_CHARS, random, from, |id|)
    ensures forall k :: 0 < k && 8 * k < |id| ==> id[..8 * k] in sessions
    ensures forall i :: 0 <= i < |id| ==> ('A' <= id[i] <= 'Z' && id[i] != 'X') || '0' <= id[i] <= '9'
    ensures next == from + |id|
  {
    id, next := DrawUntilUnused(SESSION_ID_CHARS, sessions, random, from);
    DrawnFromAlphabet(SESSION_ID_CHARS, random, from, |id|);
    forall i | 0 <= i < |id|
      ensures ('A' <= id[i] <= 'Z' && id[i] != 'X') || '0' <= id[i] <= '9'
    {
      SessionIdChar(id[i]);
    }
  }

  /** The session-id alphabet is the upper-case letters without 'X' (it has 'K' twice), and the digits. */
  lemma SessionIdChar(c: char)
    requires c in SESSION_ID_CHARS
    ensures ('A' <= c <= 'Z' && c != 'X') || '0' <= c <= '9'
  {
    if c in "ABCDEFGHIJKL" {
    } else if c in "MNOPQRSTUVWK" {
    } else {
      assert c in "YZ0123456789";
    }
  }

  /** The name alphabet is the lower-case letters and the digits. */
  lemma NameChar(c: char)
    requires c in NAME_CHARS
    ensures 'a' <= c <= 'z' || '0' <= c <= '9'
  {
    if c in "abcdefghijkl" {
    } else if c in "mnopqrstuvwx" {
    } else {
      assert c in "yz0123456789";
    }
  }

  /** `genRandomName()`: four characters drawn from [a-z0-9]. */
  method GenRandomName(random: nat -> real, from: nat) returns (name: string, next: nat)
    requires IsRandomSource(random)
    ensures name == Drawn(NAME_CHARS, random, from, 4)
    ensures |name| == 4 && forall i :: 0 <= i < 4 ==> 'a' <= name[i] <= 'z' || '0' <= name[i] <= '9'
    ensures next == from + 4
  {
    name, next := AppendDraws("", NAME_CHARS, random, from, from, 4);
    DrawnFromAlphabet(NAME_CHARS, random, from, 4);
    forall i | 0 <= i < 4
      ensures 'a' <= name[i] <= 'z' || '0' <= name[i] <= '9'
    {
      NameChar(name[i]);
    }
  }

  // ---------------------------------------------------------------------------
  // ffmpeg download page
  // ---------------------------------------------------------------------------

  const FFMPEG_URL_DARWIN := "https://ffmpeg.zeranoe.com/builds/macos64/static/ffmpeg-latest-macos64-static.zip"
  const FFMPEG_URL_WIN32 := "https://ffmpeg.zeranoe.com/builds/win64/static/ffmpeg-latest-win64-static.zip | https://ffmpeg.zeranoe.com/builds/win32/static/ffmpeg-latest-win32-static.zip"
  const FFMPEG_URL_LINUX := "https://johnvansickle.com/ffmpeg/releases/ffmpeg-release-amd64-static.tar.xz | https://johnvansickle.com/ffmpeg/releases/ffmpeg-release-i686-static.tar.xz"
  const FFMPEG_URL_DEFAULT := "http://ffmpeg.org/download.html"

  /** `getFFmpegUrl()` for the given `process.platform`. */
  function GetFFmpegUrl(platform: string): (url: string)
    ensures platform == "darwin" ==> url == FFMPEG_URL_DARWIN
    ensures platform == "win32" ==> url == FFMPEG_URL_WIN32
    ensures platform == "linux" ==> url == FFMPEG_URL_LINUX
    ensures url == FFMPEG_URL_DEFAULT <==> platform !in {"darwin", "win32", "linux"}
  {
    if platform == "darwin" then FFMPEG_URL_DARWIN
    else if platform == "win32" then FFMPEG_URL_WIN32
    else if platform == "linux" then FFMPEG_URL_LINUX
    else FFMPEG_URL_DEFAULT
  }
}
