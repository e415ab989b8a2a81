/** Values that every layer of the host updater shares: outcomes, error codes, versions,
    request identifiers and digests. */
module Protocol {

  datatype Option<+T> = None | Some(value: T)

  /** An operation either returns a value or is rejected with a code. */
  datatype Result<+T> = Success(value: T) | Failure(code: Code)

  /** How one step outside the program goes: it works, or it reports a failure without or after
      having taken effect. */
  datatype Fate = Smooth | FailsEarly | FailsLate

  datatype Code =
    | BadRequest | PeerDenied | AuthorizationRequired | Busy | RequestIdReused
    | CurrentVersionChanged | NotAnUpgrade | JournalCapacity | JournalUnsafe | JournalCorrupt
    | JournalIo | InvalidTransition | InterruptedBeforeCutover | RecoveryRequired
    | PreflightFailed | SourceVerificationFailed | StagingFailed | StopFailed | BackupFailed
    | StartFailed | HealthFailed | RestoreFailed | ExecutorUnavailable | InternalError

  /** The spelling that is written to the journal and sent to clients. */
  function CodeText(code: Code): (text: string)
    ensures |text| <= 26
  {
    match code
    case BadRequest => "BAD_REQUEST"
    case PeerDenied => "PEER_DENIED"
    case AuthorizationRequired => "AUTHORIZATION_REQUIRED"
    case Busy => "BUSY"
    case RequestIdReused => "REQUEST_ID_REUSED"
    case CurrentVersionChanged => "CURRENT_VERSION_CHANGED"
    case NotAnUpgrade => "NOT_AN_UPGRADE"
    case JournalCapacity => "JOURNAL_CAPACITY"
    case JournalUnsafe => "JOURNAL_UNSAFE"
    case JournalCorrupt => "JOURNAL_CORRUPT"
    case JournalIo => "JOURNAL_IO"
    case InvalidTransition => "INVALID_TRANSITION"
    case InterruptedBeforeCutover => "INTERRUPTED_BEFORE_CUTOVER"
    case RecoveryRequired => "RECOVERY_REQUIRED"
    case PreflightFailed => "PREFLIGHT_FAILED"
    case SourceVerificationFailed => "SOURCE_VERIFICATION_FAILED"
    case StagingFailed => "STAGING_FAILED"
    case StopFailed => "STOP_FAILED"
    case BackupFailed => "BACKUP_FAILED"
    case StartFailed => "START_FAILED"
    case HealthFailed => "HEALTH_FAILED"
    case RestoreFailed => "RESTORE_FAILED"
    case ExecutorUnavailable => "EXECUTOR_UNAVAILABLE"
    case InternalError => "INTERNAL_ERROR"
  }

  /** A release version. The textual form is three canonical decimals of at most four digits. */
  datatype Version = Version(major: int, minor: int, patch: int)

  predicate IsVersion(v: Version) {
    0 <= v.major <= 9999 && 0 <= v.minor <= 9999 && 0 <= v.patch <= 9999
  }

  function VersionText(v: Version): string {
    Number(v.major) + "." + Number(v.minor) + "." + Number(v.patch)
  }

  /** Lexicographic comparison of the three parts. */
  predicate Newer(target: Version, current: Version) {
    target.major > current.major
    || (target.major == current.major
        && (target.minor > current.minor
            || (target.minor == current.minor && target.patch > current.patch)))
  }

  /** The version as one number, with four digits for each of the lower parts. */
  function Ordinal(v: Version): int {
    v.major * 100_000_000 + v.minor * 10_000 + v.patch
  }

  /** For versions that can be requested, newer is greater. */
  lemma NewerMeans(target: Version, current: Version)
    requires IsVersion(target) && IsVersion(current)
    ensures Newer(target, current) <==> Ordinal(target) > Ordinal(current)
  {
  }

  // A number as text.

  function Pow10(k: nat): (r: nat)
    ensures r >= 1
  {
    if k == 0 then 1 else 10 * Pow10(k - 1)
  }

  function Decimal(n: nat): string {
    if n < 10 then ['0' + n as char] else Decimal(n / 10) + ['0' + (n % 10) as char]
  }

  lemma {:induction false} DecimalLength(n: nat, k: nat)
    requires k >= 1 && n < Pow10(k)
    ensures 1 <= |Decimal(n)| <= k
  {
    if n >= 10 {
      assert Pow10(1) == 10;
      DecimalLength(n / 10, k - 1);
    }
  }

  /** What a text of digits says. */
  function Spelled(s: string): int {
    if s == [] then 0 else 10 * Spelled(s[..|s| - 1]) + (s[|s| - 1] as int - '0' as int)
  }

  lemma {:induction false} DecimalMeans(n: nat)
    ensures Spelled(Decimal(n)) == n && forall c :: c in Decimal(n) ==> '0' <= c <= '9'
  {
    if n < 10 {
      assert Decimal(n)[..0] == [];
    } else {
      var last := '0' + (n % 10) as char;
      DecimalMeans(n / 10);
      assert Decimal(n)[..|Decimal(n)| - 1] == Decimal(n / 10);
    }
  }

  function Number(n: int): string {
    if n < 0 then "-" + Decimal(-n) else Decimal(n)
  }

  lemma {:induction false} LongDecimal(n: nat, k: nat)
    requires n >= Pow10(k)
    ensures |Decimal(n)| > k
  {
    if k > 0 { LongDecimal(n / 10, k - 1); }
  }

  /** A part of a version: no sign, and at most four digits. */
  predicate FourDigits(n: int) {
    n >= 0 && |Number(n)| <= 4
  }

  lemma VersionMeans(v: Version)
    ensures IsVersion(v) <==> FourDigits(v.major) && FourDigits(v.minor) && FourDigits(v.patch)
  {
    forall n: int ensures FourDigits(n) <==> 0 <= n <= 9999 {
      assert Pow10(4) == 10_000;
      if 0 <= n <= 9999 { DecimalLength(n, 4); }
      if n > 9999 { LongDecimal(n, 4); }
    }
  }

  predicate IsHex(c: char) {
    '0' <= c <= '9' || 'a' <= c <= 'f'
  }

  /** A lower-case hexadecimal SHA-256. */
  predicate IsDigest(s: string) {
    |s| == 64 && forall i :: 0 <= i < 64 ==> IsHex(s[i])
  }

  /** A random (version 4) UUID in lower case. */
  predicate IsRequestId(s: string) {
    && |s| == 36
    && (forall i :: 0 <= i < 36 ==> if i in {8, 13, 18, 23} then s[i] == '-' else IsHex(s[i]))
    && s[14] == '4'
    && s[19] in {'8', '9', 'a', 'b'}
  }

  predicate Hexadecimal(s: string) {
    forall c :: c in s ==> c in "0123456789abcdef"
  }

  lemma DigestMeans(s: string)
    ensures IsDigest(s) <==> |s| == 64 && Hexadecimal(s)
  {
    forall c ensures IsHex(c) <==> c in "0123456789abcdef" { HexMeans(c); }
    if IsDigest(s) {
      forall c | c in s ensures IsHex(c) {
        var i :| 0 <= i < |s| && s[i] == c;
      }
    }
    forall i | 0 <= i < |s| ensures s[i] in s {}
  }

  lemma HexMeans(c: char)
    ensures IsHex(c) <==> c in "0123456789abcdef"
  {
    var all := "0123456789abcdef";
    if '0' <= c <= '9' { assert all[c as int - '0' as int] == c; }
    if 'a' <= c <= 'f' { assert all[10 + c as int - 'a' as int] == c; }
  }

  /** The five groups of a random UUID. */
  lemma RequestIdMeans(s: string)
    ensures IsRequestId(s) <==>
      && |s| == 36 && s[8..9] == s[13..14] == s[18..19] == s[23..24] == "-"
      && Hexadecimal(s[..8]) && Hexadecimal(s[9..13]) && Hexadecimal(s[14..18]) && Hexadecimal(s[19..23])
      && Hexadecimal(s[24..])
      && s[14..15] == "4" && s[19..20] in {"8", "9", "a", "b"}
  {
    forall c ensures IsHex(c) <==> c in "0123456789abcdef" { HexMeans(c); }
    if |s| == 36 {
      HexGroup(s, 0, 8);
      HexGroup(s, 9, 13);
      HexGroup(s, 14, 18);
      HexGroup(s, 19, 23);
      HexGroup(s, 24, 36);
      assert s[..8] == s[0..8] && s[24..] == s[24..36];
      assert s[8..9] == [s[8]] && s[13..14] == [s[13]] && s[18..19] == [s[18]] && s[23..24] == [s[23]];
      assert s[14..15] == [s[14]] && s[19..20] == [s[19]];
    }
  }

  lemma HexGroup(s: string, i: nat, k: nat)
    requires i <= k <= |s|
    ensures Hexadecimal(s[i..k]) <==> forall j :: i <= j < k ==> IsHex(s[j])
  {
    forall c ensures IsHex(c) <==> c in "0123456789abcdef" { HexMeans(c); }
    var part := s[i..k];
    forall j | i <= j < k ensures s[j] in part { assert part[j - i] == s[j]; }
    forall c | c in part ensures exists j :: i <= j < k && s[j] == c {
      var m :| 0 <= m < |part| && part[m] == c;
      assert s[i + m] == c;
    }
  }

  datatype Request = Request(id: string, target: Version, current: Version)

  predicate IsRequest(r: Request) {
    IsRequestId(r.id) && IsVersion(r.target) && IsVersion(r.current)
  }
}
