/**
 * The staging uploader (oss_uploader.py): it is configured when all four
 * credentials are present, stores an upload under a key made of a time stamp
 * and a random identifier, and hands back a signed download URL. The storage
 * service's answers are parameters: the status of the put, and whether the
 * delete went through.
 */
module Oss {
  import opened Wrappers
  import Audio

  /** The digits of bases up to 16, as `strftime` and `uuid` print them. */
  const DIGITS := "0123456789abcdef"

  function Pow(b: nat, w: nat): nat {
    if w == 0 then 1 else b * Pow(b, w - 1)
  }

  /**
   * `n` printed with exactly `w` digits in base `b`, zero-padded on the left
   * (`%02d`, `%08x`); digits beyond the `w` lowest are not printed.
   */
  function Numeral(n: nat, w: nat, b: nat): (r: string)
    requires 2 <= b <= 16
    ensures |r| == w
    ensures forall i :: 0 <= i < w ==> r[i] in DIGITS[..b]
  {
    if w == 0 then "" else Numeral(n / b, w - 1, b) + [DIGITS[n % b]]
  }

  /** The value of one digit character. */
  function DigitValue(c: char): nat {
    if '0' <= c <= '9' then c as nat - '0' as nat
    else if 'a' <= c <= 'f' then c as nat - 'a' as nat + 10
    else 0
  }

  /** The number a string of digits denotes in base `b`. */
  function NumeralValue(s: string, b: nat): nat {
    if s == [] then 0 else NumeralValue(s[..|s| - 1], b) * b + DigitValue(s[|s| - 1])
  }

  lemma DigitRoundTrip(d: nat)
    requires d < 16
    ensures DigitValue(DIGITS[d]) == d
  {
  }

  /** Splitting `n` into its last digit and the rest. */
  lemma DivMod(n: nat, b: nat) returns (q: nat, d: nat)
    requires 2 <= b
    ensures q == n / b && d == n % b && d < b && n == q * b + d
  {
    q, d := n / b, n % b;
  }

  lemma DivBound(n: nat, b: nat, p: nat, q: nat, d: nat)
    requires 2 <= b && n < b * p && n == q * b + d
    ensures q < p
  {
  }

  /** Appending one digit multiplies the value by the base and adds the digit. */
  lemma AppendDigit(s: string, c: char, b: nat, q: nat, d: nat)
    requires NumeralValue(s, b) == q && DigitValue(c) == d
    ensures NumeralValue(s + [c], b) == q * b + d
  {
    assert (s + [c])[..|s|] == s;
  }

  /** A number below b^w is printed without loss: reading the digits back gives it again. */
  lemma {:induction false} NumeralRoundTrip(n: nat, w: nat, b: nat)
    requires 2 <= b <= 16 && n < Pow(b, w)
    ensures NumeralValue(Numeral(n, w, b), b) == n
    decreases w
  {
    if w > 0 {
      var q, d := DivMod(n, b);
      DivBound(n, b, Pow(b, w - 1), q, d);
      var s := Numeral(q, w - 1, b);
      assert Numeral(n, w, b) == s + [DIGITS[d]];
      NumeralRoundTrip(q, w - 1, b);
      DigitRoundTrip(d);
      AppendDigit(s, DIGITS[d], b, q, d);
    }
  }

  /** The local time `datetime.now()` supplies. */
  datatype DateTime = DateTime(year: nat, month: nat, day: nat, hour: nat, minute: nat, second: nat)

  /** A time stamp whose every field fits the width `strftime` prints it with. */
  predicate Printable(t: DateTime) {
    t.year < 10000 && t.month < 100 && t.day < 100 && t.hour < 100 && t.minute < 100 && t.second < 100
  }

  /** `strftime("%Y%m%d_%H%M%S")`: eight digits, an underscore, six digits. */
  function Timestamp(t: DateTime): (r: string)
    ensures |r| == 15 && r[8] == '_'
    ensures forall i :: 0 <= i < 15 && i != 8 ==> '0' <= r[i] <= '9'
  {
    var date := Numeral(t.year, 4, 10) + Numeral(t.month, 2, 10) + Numeral(t.day, 2, 10);
    var time := Numeral(t.hour, 2, 10) + Numeral(t.minute, 2, 10) + Numeral(t.second, 2, 10);
    date + "_" + time
  }

  /** Reads the fields back out of a printed time stamp. */
  function ParseTimestamp(s: string): DateTime
    requires |s| == 15
  {
    DateTime(NumeralValue(s[0..4], 10), NumeralValue(s[4..6], 10), NumeralValue(s[6..8], 10),
             NumeralValue(s[9..11], 10), NumeralValue(s[11..13], 10), NumeralValue(s[13..15], 10))
  }

  /** The printed time stamp determines the time it was taken at. */
  lemma TimestampRoundTrip(t: DateTime)
    requires Printable(t)
    ensures ParseTimestamp(Timestamp(t)) == t
  {
    var y, mo, d := Numeral(t.year, 4, 10), Numeral(t.month, 2, 10), Numeral(t.day, 2, 10);
    var h, mi, se := Numeral(t.hour, 2, 10), Numeral(t.minute, 2, 10), Numeral(t.second, 2, 10);
    var s := Timestamp(t);
    assert s == y + mo + d + "_" + (h + mi + se);
    assert s[0..4] == y && s[4..6] == mo && s[6..8] == d;
    assert s[9..11] == h && s[11..13] == mi && s[13..15] == se;
    NumeralRoundTrip(t.year, 4, 10);
    NumeralRoundTrip(t.month, 2, 10);
    NumeralRoundTrip(t.day, 2, 10);
    NumeralRoundTrip(t.hour, 2, 10);
    NumeralRoundTrip(t.minute, 2, 10);
    NumeralRoundTrip(t.second, 2, 10);
  }

  /** The 128-bit value of a `uuid.uuid4()`. */
  type Uuid = x: nat | x < 0x1_0000_0000_0000_0000_0000_0000_0000_0000

  /** 2^96: what is left of a uuid once its first eight hex digits are taken away. */
  const UUID_TAIL: nat := 0x1_0000_0000_0000_0000_0000_0000

  /** `str(uuid)[:8]`: the eight hex digits of the uuid's top 32 bits. */
  function UuidPrefix(u: Uuid): (r: string)
    ensures |r| == 8
    ensures forall i :: 0 <= i < 8 ==> r[i] in DIGITS
  {
    Numeral(u / UUID_TAIL, 8, 16)
  }

  const KEY_PREFIX := "audio/"

  /** The object key `audio/{timestamp}_{uuid[:8]}.{ext}`. */
  function ObjectKey(t: DateTime, u: Uuid, ext: string): (r: string)
    ensures |r| == 31 + |ext|
    ensures r[..6] == KEY_PREFIX && r[6..21] == Timestamp(t) && r[21] == '_'
    ensures r[22..30] == UuidPrefix(u) && r[30] == '.' && r[31..] == ext
  {
    var r := KEY_PREFIX + Timestamp(t) + "_" + UuidPrefix(u) + "." + ext;
    assert r == (KEY_PREFIX + Timestamp(t)) + ("_" + UuidPrefix(u) + "." + ext);
    r
  }

  /**
   * The key determines its parts: the time stamp, the identifier's first 32 bits
   * and the extension, so two uploads collide only when all three agree.
   */
  lemma ObjectKeyParts(t: DateTime, u: Uuid, ext: string)
    requires Printable(t)
    ensures var key := ObjectKey(t, u, ext);
      && ParseTimestamp(key[6..21]) == t
      && NumeralValue(key[22..30], 16) == u / UUID_TAIL
      && key[31..] == ext
  {
    TimestampRoundTrip(t);
    assert u / UUID_TAIL < Pow(16, 8);
    NumeralRoundTrip(u / UUID_TAIL, 8, 16);
  }

  /** The five settings the uploader reads; the domain is read but never used. */
  datatype Credentials = Credentials(
    accessKeyId: string, accessKeySecret: string, endpoint: string, bucketName: string, bucketDomain: string)

  /** `all([...])` over the four credentials the client needs. */
  predicate Complete(c: Credentials) {
    c.accessKeyId != "" && c.accessKeySecret != "" && c.endpoint != "" && c.bucketName != ""
  }

  /** The storage client handle, `oss2.Bucket(auth, endpoint, bucket_name)`. */
  datatype Bucket = Bucket(accessKeyId: string, accessKeySecret: string, endpoint: string, name: string)

  /** A signed download URL as the client is asked to make it. */
  datatype SignedUrl = SignedUrl(verb: string, bucket: Bucket, key: string, expires: int)

  /** How `put_object` ended: with a status code, or by raising. */
  datatype PutOutcome = PutStatus(status: int) | PutRaised

  /** How `delete_object` ended. */
  datatype DeleteOutcome = Deleted | DeleteRaised

  const HTTP_OK := 200

  /** Seconds the download URL stays valid. */
  const URL_LIFETIME := 3600

  /** OSSUploader: built once from the credentials; the client exists exactly when they are complete. */
  class OssUploader {
    const credentials: Credentials
    const bucket: Option<Bucket>

    ghost predicate Valid() {
      bucket == if Complete(credentials) then
        Some(Bucket(credentials.accessKeyId, credentials.accessKeySecret, credentials.endpoint, credentials.bucketName))
      else None
    }

    /** `__init__`: no client unless all four credentials are non-empty. */
    constructor (credentials: Credentials)
      ensures this.credentials == credentials
      ensures Valid()
    {
      this.credentials := credentials;
      if Complete(credentials) {
        bucket := Some(Bucket(credentials.accessKeyId, credentials.accessKeySecret, credentials.endpoint, credentials.bucketName));
      } else {
        bucket := None;
      }
    }

    /** `is_configured`: whether the client exists, which is whether all four credentials are there. */
    function IsConfigured(): (r: bool)
      requires Valid()
      ensures r <==> Complete(credentials)
    {
      bucket.Some?
    }

    /**
     * `upload_audio`, with the clock, the identifier and the put's outcome as
     * parameters: URL and key come back together or not at all; they come back
     * exactly when the uploader is configured and the put answered 200, and then
     * the URL signs a GET of that key, with now + 3600 as the expiry handed to `sign_url`.
     */
    function UploadAudio(audioData: seq<Audio.Byte>, ext: string, now: int, stamp: DateTime, id: Uuid, put: PutOutcome)
      : (r: (Option<SignedUrl>, Option<string>))
      requires Valid()
      ensures r.0.Some? <==> r.1.Some?
      ensures r.1.Some? <==> IsConfigured() && put == PutStatus(HTTP_OK)
      ensures r.1.Some? ==> r.1.value == ObjectKey(stamp, id, ext)
      ensures r.0.Some? ==> r.0.value == SignedUrl("GET", bucket.value, r.1.value, now + URL_LIFETIME)
    {
      if !IsConfigured() then (None, None)
      else
        var objectKey := ObjectKey(stamp, id, ext);
        // `put_object(objectKey, audioData)` is answered by `put`; a raise is caught
        match put
        case PutRaised => (None, None)
        case PutStatus(status) =>
          if status == HTTP_OK then
            var expires := now + URL_LIFETIME;
            (Some(SignedUrl("GET", bucket.value, objectKey, expires)), Some(objectKey))
          else (None, None)
    }

    /** `delete_audio`: true exactly when configured and the delete went through; it never raises. */
    function DeleteAudio(objectKey: string, outcome: DeleteOutcome): (deleted: bool)
      requires Valid()
      ensures deleted <==> IsConfigured() && outcome == Deleted
    {
      if !IsConfigured() then false
      else
        match outcome
        case Deleted => true
        case DeleteRaised => false
    }
  }
}
