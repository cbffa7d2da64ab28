/** The names objects are stored under, and why no two writers share one. */
module Keys {
  import opened Common

  const HEX_DIGITS := "0123456789abcdef"

  function Power16(k: nat): nat {
    if k == 0 then 1 else 16 * Power16(k - 1)
  }

  /** The k low-order hexadecimal digits of a number. */
  function Hex(n: nat, k: nat): (r: string)
    ensures |r| == k
  {
    if k == 0 then "" else Hex(n / 16, k - 1) + [HEX_DIGITS[n % 16]]
  }

  lemma {:induction false} HexInjective(m: nat, n: nat, k: nat)
    requires m < Power16(k) && n < Power16(k) && Hex(m, k) == Hex(n, k)
    ensures m == n
  {
    if k == 0 {
    } else {
      HexParts(m, k);
      HexParts(n, k);
      HexInjective(m / 16, n / 16, k - 1);
      DigitsDiffer(m % 16, n % 16);
    }
  }

  lemma HexParts(n: nat, k: nat)
    requires k > 0
    ensures Hex(n, k)[..k - 1] == Hex(n / 16, k - 1) && Hex(n, k)[k - 1] == HEX_DIGITS[n % 16]
  {
  }

  lemma DigitsDiffer(a: nat, b: nat)
    requires a < 16 && b < 16 && HEX_DIGITS[a] == HEX_DIGITS[b]
    ensures a == b
  {
  }

  lemma SpaceIsHex()
    ensures UUID_SPACE == Power16(32)
  {
    assert Power16(4) == 65536;
    assert Power16(8) == 65536 * Power16(4);
    assert Power16(12) == 65536 * Power16(8);
    assert Power16(16) == 65536 * Power16(12);
    assert Power16(20) == 65536 * Power16(16);
    assert Power16(24) == 65536 * Power16(20);
    assert Power16(28) == 65536 * Power16(24);
    assert Power16(32) == 65536 * Power16(28);
  }

  /** An identifier as text: groups of 8, 4, 4, 4 and 12 digits. */
  function Text(id: Uuid): (r: string)
    ensures |r| == 36
  {
    var h := Hex(id, 32);
    h[..8] + "-" + h[8..12] + "-" + h[12..16] + "-" + h[16..20] + "-" + h[20..]
  }

  lemma TextInjective(a: Uuid, b: Uuid)
    requires Text(a) == Text(b)
    ensures a == b
  {
    TextDigits(a);
    TextDigits(b);
    SpaceIsHex();
    HexInjective(a, b, 32);
  }

  /** Without the dashes, the text is the digits. */
  lemma TextDigits(id: Uuid)
    ensures var s := Text(id); s[..8] + s[9..13] + s[14..18] + s[19..23] + s[24..] == Hex(id, 32)
  {
    var s, h := Text(id), Hex(id, 32);
    assert s[..8] == h[..8] && s[9..13] == h[8..12] && s[14..18] == h[12..16];
    assert s[19..23] == h[16..20] && s[24..] == h[20..];
  }

  /** Everything the control plane and the executors write to object storage. */
  datatype Name =
    | ArtifactContent(id: Uuid)
    | PayloadContent(id: Uuid)
    | TaskPayload(task: Uuid)
    | TaskLogs(task: Uuid, lease: Uuid)
    | TaskResult(task: Uuid, lease: Uuid)

  function Path(n: Name): string {
    match n
    case ArtifactContent(id) => "artifacts/" + Text(id)
    case PayloadContent(id) => "payloads/" + Text(id) + ".json"
    case TaskPayload(task) => "tasks/" + Text(task) + "/payload.json"
    case TaskLogs(task, lease) => "tasks/" + Text(task) + "/" + Text(lease) + "/logs.txt"
    case TaskResult(task, lease) => "tasks/" + Text(task) + "/" + Text(lease) + "/result.json"
  }

  lemma PathLength(n: Name)
    ensures |Path(n)| ==
      match n case ArtifactContent(_) => 46 case PayloadContent(_) => 50 case TaskPayload(_) => 55
              case TaskLogs(_, _) => 88 case TaskResult(_, _) => 91
  {
  }

  /** What belongs to a task lies in its folder, and what belongs to a lease in the folder of that lease. */
  lemma InTheirFolders(task: Uuid, lease: Uuid)
    ensures "tasks/" + Text(task) <= Path(TaskPayload(task))
    ensures "tasks/" + Text(task) + "/" + Text(lease) <= Path(TaskLogs(task, lease))
    ensures "tasks/" + Text(task) + "/" + Text(lease) <= Path(TaskResult(task, lease))
  {
  }

  /** Different things are stored under different paths. */
  lemma PathInjective(m: Name, n: Name)
    requires Path(m) == Path(n)
    ensures m == n
  {
    PathLength(m);
    PathLength(n);
    var s := Path(m);
    match m
    case ArtifactContent(id) =>
      assert s[10..46] == Text(id) == Text(n.id);
      TextInjective(id, n.id);
    case PayloadContent(id) =>
      assert s[9..45] == Text(id) == Text(n.id);
      TextInjective(id, n.id);
    case TaskPayload(task) =>
      assert s[6..42] == Text(task) == Text(n.task);
      TextInjective(task, n.task);
    case TaskLogs(task, lease) => PairInjective(task, lease, "/logs.txt", n.task, n.lease);
    case TaskResult(task, lease) => PairInjective(task, lease, "/result.json", n.task, n.lease);
  }

  lemma PairInjective(task: Uuid, lease: Uuid, end: string, other: Uuid, otherLease: Uuid)
    requires "tasks/" + Text(task) + "/" + Text(lease) + end == "tasks/" + Text(other) + "/" + Text(otherLease) + end
    ensures task == other && lease == otherLease
  {
    var s := "tasks/" + Text(task) + "/" + Text(lease) + end;
    assert s[6..42] == Text(task) == Text(other);
    assert s[43..79] == Text(lease) == Text(otherLease);
    TextInjective(task, other);
    TextInjective(lease, otherLease);
  }
}
