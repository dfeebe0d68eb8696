/** Idempotent commands: what makes one valid, and what its request fingerprint stands for. */
module OnboardingCommands {
  import opened Basics
  import opened Lists
  import opened UuidText
  import opened OnboardingRepository

  datatype CommandError = InvalidCommand

  /** A validated command identity; the key is trimmed before it is checked and stored. */
  function NewCommand(trim: string -> string, actor: Uuid, app: Uuid, operation: Operation, key: string,
      expected: Option<nat>)
    : Result<(CommandKey, Command), CommandError>
  {
    if actor == NIL_UUID || app == NIL_UUID || trim(key) == "" || |trim(key)| > 255 then Err(InvalidCommand)
    else if operation.Confirm? && (expected.None? || expected.value == 0) then Err(InvalidCommand)
    else if operation.DryRun? && expected.Some? then Err(InvalidCommand)
    else Ok((CommandKey(actor, operation, trim(key)),
             Command(app, Fingerprint(actor, app, operation, expected), Accepted, None, None, None)))
  }

  function OperationText(operation: Operation): string {
    if operation.DryRun? then "dry_run" else "confirm"
  }

  function Decimal(n: nat): (text: string)
    ensures text != "" && forall c <- text :: '0' <= c <= '9'
  {
    var digit := ['0' + (n % 10) as char];
    if n < 10 then digit else Decimal(n / 10) + digit
  }

  lemma {:induction false} DecimalInjective(a: nat, b: nat)
    requires Decimal(a) == Decimal(b)
    ensures a == b
  {
    var s, t := Decimal(a), Decimal(b);
    assert s[|s| - 1] == '0' + (a % 10) as char && t[|t| - 1] == '0' + (b % 10) as char;
    if a >= 10 && b >= 10 {
      assert s[..|s| - 1] == Decimal(a / 10) && t[..|t| - 1] == Decimal(b / 10);
      DecimalInjective(a / 10, b / 10);
    }
  }

  /** The number a text of decimal digits stands for. */
  function ReadDecimal(s: string): int {
    if s == "" then 0 else 10 * ReadDecimal(s[..|s| - 1]) + (s[|s| - 1] as int - '0' as int)
  }

  /** A version's text reads back as the version and starts with no idle zero. */
  lemma {:induction false} DecimalReadsBack(n: nat)
    ensures ReadDecimal(Decimal(n)) == n && (n > 0 ==> Decimal(n)[0] != '0')
  {
    var s := Decimal(n);
    assert s[|s| - 1] == '0' + (n % 10) as char;
    if n >= 10 {
      assert s[..|s| - 1] == Decimal(n / 10);
      DecimalReadsBack(n / 10);
    } else {
      assert s[..|s| - 1] == "";
    }
  }

  function VersionText(expected: Option<nat>): string {
    if expected.None? then "" else Decimal(expected.value)
  }

  /** The text that is hashed. */
  function Canonical(f: Fingerprint): string {
    Text(f.actorId) + "\n" + Text(f.applicationId) + "\n" + OperationText(f.operation) + "\n"
        + VersionText(f.expectedVersion)
  }

  lemma CanonicalParts(f: Fingerprint)
    ensures Canonical(f) == Text(f.actorId) + "\n" + (Text(f.applicationId) + "\n"
                              + (OperationText(f.operation) + "\n" + VersionText(f.expectedVersion)))
  {
    Regroup(Text(f.actorId), "\n", Text(f.applicationId), OperationText(f.operation), VersionText(f.expectedVersion));
  }

  lemma Regroup(a: string, line: string, b: string, c: string, d: string)
    ensures a + line + b + line + c + line + d == a + line + (b + line + (c + line + d))
  {
  }

  /** Two texts cut at a line break at one position. */
  lemma CutAtLength(a: string, b: string, x: string, y: string)
    requires |a| == |b| && a + "\n" + x == b + "\n" + y
    ensures a == b && x == y
  {
    var s, t := a + "\n" + x, b + "\n" + y;
    assert s[..|a|] == a && t[..|b|] == b && s[|a| + 1..] == x && t[|b| + 1..] == y;
  }

  /** Commands with one canonical text are the same request, so a fingerprint may be read as what it hashes. */
  lemma CanonicalInjective(a: Fingerprint, b: Fingerprint)
    requires Canonical(a) == Canonical(b)
    ensures a == b
  {
    var x := OperationText(a.operation) + "\n" + VersionText(a.expectedVersion);
    var y := OperationText(b.operation) + "\n" + VersionText(b.expectedVersion);
    CanonicalParts(a);
    CanonicalParts(b);
    CutAtLength(Text(a.actorId), Text(b.actorId), Text(a.applicationId) + "\n" + x, Text(b.applicationId) + "\n" + y);
    CutAtLength(Text(a.applicationId), Text(b.applicationId), x, y);
    TextInjective(a.actorId, b.actorId);
    TextInjective(a.applicationId, b.applicationId);
    CutAtFirst('\n', OperationText(a.operation), OperationText(b.operation), VersionText(a.expectedVersion),
        VersionText(b.expectedVersion));
    assert OperationText(a.operation)[0] == OperationText(b.operation)[0];
    if a.expectedVersion.Some? && b.expectedVersion.Some? {
      DecimalInjective(a.expectedVersion.value, b.expectedVersion.value);
    }
  }
}
