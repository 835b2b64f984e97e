/**
 Deterministic run names: `<artifact, cut to 40 characters>-<8 characters of the hash>-r<attempt>`.
 */
module Names {
  import opened Api

  /** `hash.Short`: the first n characters after an optional "sha256:" prefix. */
  function Short(canonical: string, n: nat): (r: string)
    ensures |r| <= n
  {
    var s := if |canonical| > 7 && canonical[..7] == "sha256:" then canonical[7..] else canonical;
    if n > |s| then s else s[..n]
  }

  function Digit(d: nat): char
    requires d < 10
  {
    '0' + (d as char)
  }

  /** Decimal rendering of the attempt, as `%d` prints it. */
  function Decimal(n: nat): (s: string)
    ensures |s| > 0
  {
    if n < 10 then [Digit(n)] else Decimal(n / 10) + [Digit(n % 10)]
  }

  /** Reading a decimal back. */
  function Value(s: string): int {
    if s == "" then 0 else 10 * Value(s[..|s| - 1]) + (s[|s| - 1] as int - '0' as int)
  }

  lemma {:induction false} ValueOfDecimal(n: nat)
    ensures Value(Decimal(n)) == n
  {
    if n < 10 {
      assert Decimal(n)[..0] == "";
    } else {
      ValueOfDecimal(n / 10);
      assert Decimal(n)[..|Decimal(n)| - 1] == Decimal(n / 10);
    }
  }

  function RunPrefix(m: Meta): string {
    (if |m.name| > 40 then m.name[..40] else m.name) + "-" + Short(m.identityHash, 8) + "-r"
  }

  /** `runName`. */
  function RunName(m: Meta, attempt: nat): string {
    RunPrefix(m) + Decimal(attempt)
  }

  /** A canonical hash is shortened after its algorithm, not inside it. */
  lemma ShortOfCanonical(hex: string, n: nat)
    requires hex != ""
    ensures Short("sha256:" + hex, n) == if n <= |hex| then hex[..n] else hex
  {
    assert ("sha256:" + hex)[..7] == "sha256:" && ("sha256:" + hex)[7..] == hex;
  }

  /** How a run name is spelled for an Artifact with a canonical hash: at most 40 characters of
      its name, a dash, the first 8 hex digits, "-r", and the attempt in decimal. */
  lemma RunNameSpelled(m: Meta, hex: string, attempt: nat)
    requires m.identityHash == "sha256:" + hex && |hex| >= 8
    ensures var name, k := RunName(m, attempt), if |m.name| <= 40 then |m.name| else 40;
            && |name| > k + 11 && name[..k] == m.name[..k] && name[k] == '-' && name[k + 1..k + 9] == hex[..8]
            && name[k + 9..k + 11] == "-r" && Value(name[k + 11..]) == attempt
            && forall i :: k + 11 <= i < |name| ==> '0' <= name[i] <= '9'
  {
    hide Decimal, Value, Short;
    var k := if |m.name| <= 40 then |m.name| else 40;
    ShortOfCanonical(hex, 8);
    ValueOfDecimal(attempt);
    DecimalDigits(attempt);
    Parts(m.name[..k], hex[..8], Decimal(attempt));
    assert m.name[..k] == if |m.name| > 40 then m.name[..40] else m.name;
  }

  lemma Parts(name: string, hash: string, digits: string)
    requires |hash| == 8 && |digits| > 0
    ensures var s, k := name + "-" + hash + "-r" + digits, |name|;
            && |s| == k + 11 + |digits| && s[..k] == name && s[k] == '-' && s[k + 1..k + 9] == hash
            && s[k + 9..k + 11] == "-r" && s[k + 11..] == digits
  {
  }

  /** One Artifact never gives two attempts the same name. */
  lemma RunNameInjective(m: Meta, i: nat, j: nat)
    ensures RunName(m, i) == RunName(m, j) ==> i == j
  {
    if RunName(m, i) == RunName(m, j) {
      assert RunName(m, i)[|RunPrefix(m)|..] == Decimal(i);
      assert RunName(m, j)[|RunPrefix(m)|..] == Decimal(j);
      ValueOfDecimal(i);
      ValueOfDecimal(j);
    }
  }

  lemma {:induction false} DecimalDigits(n: nat)
    ensures forall k :: 0 <= k < |Decimal(n)| ==> '0' <= Decimal(n)[k] <= '9'
  {
    if n >= 10 { DecimalDigits(n / 10); }
  }

  /** The attempt is what follows the last 'r'. */
  lemma PrefixNotLonger(m: Meta, i: nat, m': Meta, j: nat)
    requires RunName(m, i) == RunName(m', j)
    ensures |RunPrefix(m')| <= |RunPrefix(m)|
  {
    DecimalDigits(i);
    assert RunName(m', j)[|RunPrefix(m')| - 1] == 'r';
  }

  /** Exactly when two run names agree: same prefix, same attempt. */
  lemma RunNamesAgree(m: Meta, i: nat, m': Meta, j: nat)
    ensures RunName(m, i) == RunName(m', j) <==> RunPrefix(m) == RunPrefix(m') && i == j
  {
    if RunName(m, i) == RunName(m', j) {
      PrefixNotLonger(m, i, m', j);
      PrefixNotLonger(m', j, m, i);
      assert RunPrefix(m) == RunName(m, i)[..|RunPrefix(m)|] == RunPrefix(m');
      RunNameInjective(m, i, j);
    }
  }

  /** Two Artifacts share every run name when the truncated name and the hash prefix agree. */
  lemma RunNamesCollide(m: Meta, m': Meta, attempt: nat)
    requires |m.name| >= 40 && |m'.name| >= 40 && m.name[..40] == m'.name[..40]
    requires m.identityHash == m'.identityHash
    ensures RunName(m, attempt) == RunName(m', attempt)
  {
    assert |m.name| == 40 ==> m.name == m.name[..40];
    assert |m'.name| == 40 ==> m'.name == m'.name[..40];
  }
}
