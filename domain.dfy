/**
 * pkg/cli/cdn/domain.go: the display helpers of the domain commands
 * (`truncate`, `formatBytes`, the name and WAF columns) and the
 * confirmation rule of `domain delete`.
 */
module Domain {
  import opened Wrappers
  import opened Types
  import opened JsonValue
  import opened Commands

  // ---------------------------------------------------------------- truncate

  /**
   * `truncate`: a string that fits is returned as it is; a longer one is cut
   * to max-3 characters and "..." is appended, so it is exactly max long.
   * Go slices at max-3, which panics for a long string when max < 3; the
   * precondition is exactly the inputs that do not panic.
   */
  function Truncate(s: string, max: int): (r: string)
    requires |s| <= max || 3 <= max
    ensures r == s <==> |s| <= max
    ensures |r| <= max
    ensures |s| > max ==> |r| == max && r[..max - 3] == s[..max - 3] && r[max - 3..] == "..."
  {
    if |s| <= max then s else s[..max - 3] + "..."
  }

  // ---------------------------------------------------------------- formatBytes

  /** 1024 to the power k. */
  function Pow1024(k: nat): (p: nat)
    ensures 1 <= p
  {
    if k == 0 then 1 else 1024 * Pow1024(k - 1)
  }

  /** The unit letters `formatBytes` indexes with its exponent. */
  const Units: string := "KMGTPE"

  /**
   * What `formatBytes` prints, less the float formatting: a plain byte count
   * below 1024, otherwise the divisor, the exponent and the unit letter of
   * "<bytes/div> <unit>B".
   */
  datatype ByteSize = Plain(n: int64) | Scaled(div: int64, exp: nat, unit: char)

  lemma {:induction false} Pow1024Grows(j: nat, k: nat)
    requires j <= k
    ensures Pow1024(j) <= Pow1024(k)
    decreases k
  {
    if j < k {
      Pow1024Grows(j, k - 1);
    }
  }

  /** Multiplying by a non-negative factor keeps an order. */
  lemma MulMono(a: int, x: int, y: int)
    requires 0 <= a && x <= y
    ensures a * x <= a * y
  {
    assert a * y - a * x == a * (y - x);
  }

  /** One turn of the loop in formatBytes keeps div * n <= bytes < div * (n + 1). */
  lemma ScaleStep(d: int, n: int, b: int)
    requires 1 <= d && 1024 <= n && d * n <= b < d * (n + 1)
    ensures d * 1024 <= b
    ensures (d * 1024) * (n / 1024) <= b < (d * 1024) * (n / 1024 + 1)
  {
    var m := n / 1024;
    assert 1024 * m <= n < 1024 * (m + 1);
    assert 1 <= m;
    MulMono(d, 1024 * m, n);
    MulMono(d, n + 1, 1024 * (m + 1));
    assert (d * 1024) * m == d * (1024 * m);
    assert (d * 1024) * (m + 1) == d * (1024 * (m + 1));
    MulMono(d * 1024, 1, m);
  }

  /** When the loop in formatBytes stops, the quotient bytes / div is in [1, 1024). */
  lemma ScaleExit(d: int, n: int, b: int)
    requires 1 <= d && 1 <= n < 1024 && d * n <= b < d * (n + 1)
    ensures d <= b < 1024 * d
  {
    MulMono(d, 1, n);
    MulMono(d, n + 1, 1024);
  }

  /** A power of 1024 that fits in an int64 has an exponent of at most 5. */
  lemma ExponentFitsUnits(e: nat)
    requires Pow1024(e + 1) < 0x8000_0000_0000_0000
    ensures e < |Units|
  {
    if e >= |Units| {
      Pow1024Grows(7, e + 1);
    }
  }

  /**
   * `formatBytes`, proved against its promise: below 1024 the count is shown
   * as it is (negative values included); otherwise div is 1024^(exp+1), the
   * shown quotient bytes/div lies in [1, 1024), the exponent stays within
   * "KMGTPE" for every int64, and the divisor never overflows.
   */
  method FormatBytes(bytes: int64) returns (r: ByteSize)
    ensures r.Plain? <==> bytes < 1024
    ensures r.Plain? ==> r.n == bytes
    ensures r.Scaled? ==>
      r.exp < |Units| && r.unit == Units[r.exp] &&
      r.div as int == Pow1024(r.exp + 1) &&
      r.div as int <= bytes as int < 1024 * r.div as int
  {
    if bytes < 1024 {
      return Plain(bytes);
    }
    var div: int64 := 1024;
    var exp: nat := 0;
    var n: int64 := bytes / 1024;
    while n >= 1024
      invariant div as int == Pow1024(exp + 1)
      invariant 1 <= n
      invariant div as int * n as int <= bytes as int < div as int * (n as int + 1)
    {
      ScaleStep(div as int, n as int, bytes as int);
      div := div * 1024;
      exp := exp + 1;
      n := n / 1024;
    }
    ScaleExit(div as int, n as int, bytes as int);
    ExponentFitsUnits(exp);
    r := Scaled(div, exp, Units[exp]);
  }

  // ---------------------------------------------------------------- list / get columns

  /** A decoded domain record, reduced to the fields the columns read. */
  datatype DomainRecord = DomainRecord(name: string, domain: string, wafEnabled: NumericBool)

  /** The DOMAIN column: the display name, or the bare domain when the name is empty. */
  function DisplayName(d: DomainRecord): (r: string)
    ensures d.name != "" ==> r == d.name
    ensures d.name == "" ==> r == d.domain
    ensures r == "" <==> d.name == "" && d.domain == ""
  {
    if d.name != "" then d.name else d.domain
  }

  /** The WAF column. */
  function WafLabel(d: DomainRecord): (r: string)
    ensures r == "Yes" <==> d.wafEnabled.Bool()
    ensures r == "Yes" || r == "No"
  {
    if d.wafEnabled.Bool() then "Yes" else "No"
  }

  /**
   * Read back from the wire: the WAF column says "Yes" exactly for a JSON
   * true, a non-zero number or one of the true spellings of ParseBool.
   */
  lemma WafColumnFromWire(name: string, domain: string, raw: Json)
    ensures var d := DomainRecord(name, domain, DecodeNumericBool(raw).value);
      WafLabel(d) == "Yes" <==>
        (raw.Bool? && raw.b) || (raw.IntNum? && raw.i != 0) || (raw.RealNum? && raw.r != 0.0) ||
        (raw.Str? && raw.s in TrueSpellings)
  {
  }

  /** `domain delete`: sent only with --force or an answer of exactly "yes". */
  function DeletePlan(domainID: string, force: bool, answer: string): (p: Plan)
    ensures p.Send? <==> force || answer == "yes"
    ensures p.Send? ==> p.call == Call(Api.DELETE, "/v1/cdn/ng/domains/" + domainID, None)
    ensures !p.Send? ==> p == Aborted
  {
    ConfirmDelete(force, answer, "/v1/cdn/ng/domains/" + domainID)
  }
}
