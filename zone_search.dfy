/** Authoritative-zone discovery (`findAuthoritativeZone`): candidate zones
    are the FQDN with ever more left-most labels dropped, tried most specific
    first; the first one the server reports as an enabled zone wins. */
module ZoneSearch {
  import opened Outcomes
  import opened GoStrings
  import opened TechnitiumApi

  /** The search found nothing; it names the FQDN it was given. */
  datatype ZoneError = NoAuthoritativeZone(fqdn: string)

  /** The error's text, as `fmt.Errorf` renders it. */
  function ErrorText(e: ZoneError): (text: string)
    ensures EndsWith(text, e.fqdn)
  {
    "no authoritative zone found for domain " + e.fqdn
  }

  /** The labels of the FQDN once one trailing dot is gone. */
  function Labels(fqdn: string): (parts: seq<string>)
    ensures |parts| >= 1
    ensures forall i :: 0 <= i < |parts| ==> '.' !in parts[i]
    ensures Join(parts) == TrimDot(fqdn)
  {
    JoinSplit(TrimDot(fqdn));
    Split(TrimDot(fqdn))
  }

  /** The candidate zones in the order they are tried: candidate `i` is the
      labels from index `i` on, joined by dots. */
  function Candidates(fqdn: string): (cands: seq<string>)
    ensures |cands| == |Labels(fqdn)|
  {
    var parts := Labels(fqdn);
    seq(|parts|, i requires 0 <= i < |parts| => Join(parts[i..]))
  }

  /** The lookup decoded, its status is "ok", and the zone is not disabled. */
  predicate Qualifies(o: LookupOutcome) {
    o.Decoded? && o.status == "ok" && !o.disabled
  }

  /** Candidate `k` qualifies and no earlier candidate does. */
  predicate IsFirstMatch(c: Connector, cands: seq<string>, lookup: (Connector, string) -> LookupOutcome, k: nat) {
    && k < |cands|
    && Qualifies(lookup(c, cands[k]))
    && forall j :: 0 <= j < k ==> !Qualifies(lookup(c, cands[j]))
  }

  /** The index of the first qualifying candidate, if any. */
  function FirstMatch(c: Connector, cands: seq<string>, lookup: (Connector, string) -> LookupOutcome): (r: Option<nat>)
    ensures r.Some? ==> IsFirstMatch(c, cands, lookup, r.value)
    ensures r.None? <==> forall j :: 0 <= j < |cands| ==> !Qualifies(lookup(c, cands[j]))
  {
    if cands == [] then None
    else if Qualifies(lookup(c, cands[0])) then Some(0)
    else match FirstMatch(c, cands[1..], lookup)
      case None => None
      case Some(k) => Some(k + 1)
  }

  /** What `findAuthoritativeZone(fqdn)` returns against the server `lookup`. */
  function FindZone(c: Connector, fqdn: string, lookup: (Connector, string) -> LookupOutcome): (r: Result<string, ZoneError>)
    ensures r.Ok? <==> exists k: nat :: IsFirstMatch(c, Candidates(fqdn), lookup, k)
    ensures r.Ok? ==> exists k: nat :: IsFirstMatch(c, Candidates(fqdn), lookup, k) && r.value == Candidates(fqdn)[k]
    ensures r.Err? ==> r.error == NoAuthoritativeZone(fqdn)
  {
    var cands := Candidates(fqdn);
    match FirstMatch(c, cands, lookup)
    case Some(k) => Ok(cands[k])
    case None => Err(NoAuthoritativeZone(fqdn))
  }

  /** `findAuthoritativeZone`: strip the trailing dot, split into labels,
      then search the candidates. */
  method FindAuthoritativeZone(c: Connector, fqdn: string, lookup: (Connector, string) -> LookupOutcome)
    returns (r: Result<string, ZoneError>)
    ensures r == FindZone(c, fqdn, lookup)
  {
    var domain := TrimDot(fqdn);
    var parts := Split(domain);
    r := SearchCandidates(c, fqdn, parts, lookup);
  }

  /** The search loop of `findAuthoritativeZone` over the labels `parts`:
      candidate `i` is looked up in turn; a failed lookup or a non-qualifying
      answer moves on to the next candidate, and the first qualifying one is
      returned at once. */
  method SearchCandidates(c: Connector, fqdn: string, parts: seq<string>, lookup: (Connector, string) -> LookupOutcome)
    returns (r: Result<string, ZoneError>)
    requires parts == Labels(fqdn)
    ensures r == FindZone(c, fqdn, lookup)
  {
    ghost var cands := Candidates(fqdn);
    for i := 0 to |parts|
      invariant forall j :: 0 <= j < i ==> !Qualifies(lookup(c, cands[j]))
    {
      var checkZone := Join(parts[i..]);
      assert checkZone == cands[i];
      var response := lookup(c, checkZone);
      match response {
        case LookupTransportErr =>
          continue;
        case LookupReadErr =>
          continue;
        case LookupParseErr =>
          continue;
        case Decoded(status, disabled) =>
          if status == "ok" && !disabled {
            FirstMatchIsResult(c, fqdn, lookup, i);
            return Ok(checkZone);
          }
      }
    }
    NothingQualifies(c, fqdn, lookup);
    return Err(NoAuthoritativeZone(fqdn));
  }

  // ---------------------------------------------------------------------------
  // The shape of the candidate list
  // ---------------------------------------------------------------------------

  /** The first candidate is the whole domain, trailing dot removed. */
  lemma FirstCandidateIsDomain(fqdn: string)
    ensures Candidates(fqdn)[0] == TrimDot(fqdn)
  {
    var parts := Labels(fqdn);
    assert parts[0..] == parts;
    JoinSplit(TrimDot(fqdn));
  }

  /** Each candidate is one label, a dot, and the next candidate. */
  lemma CandidateStep(fqdn: string, i: nat)
    requires i + 1 < |Candidates(fqdn)|
    ensures Candidates(fqdn)[i] == Labels(fqdn)[i] + "." + Candidates(fqdn)[i + 1]
  {
    var parts := Labels(fqdn);
    assert parts[i..][1..] == parts[i + 1..];
  }

  /** The last candidate is the right-most label alone. */
  lemma LastCandidateIsLastLabel(fqdn: string)
    ensures var n := |Candidates(fqdn)|; Candidates(fqdn)[n - 1] == Labels(fqdn)[n - 1] && '.' !in Candidates(fqdn)[n - 1]
  {
    var parts := Labels(fqdn);
    assert parts[|parts| - 1..] == [parts[|parts| - 1]];
  }

  /** Later candidates are suffixes of earlier ones, and strictly shorter:
      the candidates run from most to least specific. */
  lemma {:induction false} CandidatesShrink(fqdn: string, i: nat, j: nat)
    requires i <= j < |Candidates(fqdn)|
    ensures EndsWith(Candidates(fqdn)[i], Candidates(fqdn)[j])
    ensures i < j ==> |Candidates(fqdn)[j]| < |Candidates(fqdn)[i]|
    decreases j - i
  {
    var cands := Candidates(fqdn);
    if i < j {
      CandidatesShrink(fqdn, i + 1, j);
      CandidateStep(fqdn, i);
      var head := Labels(fqdn)[i] + ".";
      assert cands[i] == head + cands[i + 1];
      assert cands[i][|cands[i]| - |cands[i + 1]|..] == cands[i + 1];
      assert cands[i][|cands[i]| - |cands[j]|..] == cands[i + 1][|cands[i + 1]| - |cands[j]|..];
    }
  }

  // ---------------------------------------------------------------------------
  // Properties of the search
  // ---------------------------------------------------------------------------

  /** A disabled zone, or a lookup whose status is not "ok", is never returned. */
  lemma NeverDisabledOrNotOk(c: Connector, fqdn: string, lookup: (Connector, string) -> LookupOutcome)
    requires FindZone(c, fqdn, lookup).Ok?
    ensures var o := lookup(c, FindZone(c, fqdn, lookup).value); o.Decoded? && o.status == "ok" && !o.disabled
  {
  }

  /** First match wins, and it is the most specific qualifying zone: every
      other qualifying candidate is a strictly shorter suffix of it. */
  lemma {:induction false} MostSpecificWins(c: Connector, fqdn: string, lookup: (Connector, string) -> LookupOutcome, j: nat)
    requires FindZone(c, fqdn, lookup).Ok?
    requires j < |Candidates(fqdn)| && Qualifies(lookup(c, Candidates(fqdn)[j]))
    ensures EndsWith(FindZone(c, fqdn, lookup).value, Candidates(fqdn)[j])
    ensures Candidates(fqdn)[j] != FindZone(c, fqdn, lookup).value ==> |Candidates(fqdn)[j]| < |FindZone(c, fqdn, lookup).value|
  {
    var cands := Candidates(fqdn);
    var k: nat :| IsFirstMatch(c, cands, lookup, k) && FindZone(c, fqdn, lookup).value == cands[k];
    assert k <= j;
    CandidatesShrink(fqdn, k, j);
  }

  /** The result depends on each candidate only through whether it qualifies:
      a failed lookup (transport, read or parse error) is treated exactly like
      an answer that does not qualify, so it does not abort the search. */
  lemma OnlyQualificationMatters(c: Connector, cands: seq<string>,
                                                    l1: (Connector, string) -> LookupOutcome,
                                                    l2: (Connector, string) -> LookupOutcome)
    requires forall j :: 0 <= j < |cands| ==> Qualifies(l1(c, cands[j])) == Qualifies(l2(c, cands[j]))
    ensures FirstMatch(c, cands, l1) == FirstMatch(c, cands, l2)
  {
  }

  /** A failed lookup of one candidate lets the search go on to the next one:
      the outcome is the same as if that candidate had not been tried. */
  lemma FailedLookupSkipped(c: Connector, fqdn: string, lookup: (Connector, string) -> LookupOutcome, i: nat)
    requires i < |Candidates(fqdn)|
    requires var o := lookup(c, Candidates(fqdn)[i]); o.LookupTransportErr? || o.LookupReadErr? || o.LookupParseErr?
    ensures FindZone(c, fqdn, lookup) == FindZone(c, fqdn, (c': Connector, z: string) => if c' == c && z == Candidates(fqdn)[i] then Decoded("error", false) else lookup(c', z))
  {
  }

  /** The not-found error's text contains the FQDN it names. */
  lemma ErrorTextNamesFqdn(fqdn: string)
    ensures Contains(ErrorText(NoAuthoritativeZone(fqdn)), fqdn)
  {
    var text := ErrorText(NoAuthoritativeZone(fqdn));
    assert OccursAt(text, fqdn, |text| - |fqdn|);
    ContainsIffOccurs(text, fqdn);
  }

  /** When no candidate qualifies (whatever the reason, including every lookup
      failing), the error names the original FQDN, trailing dot included. */
  lemma NothingQualifies(c: Connector, fqdn: string, lookup: (Connector, string) -> LookupOutcome)
    requires forall j :: 0 <= j < |Candidates(fqdn)| ==> !Qualifies(lookup(c, Candidates(fqdn)[j]))
    ensures FindZone(c, fqdn, lookup) == Err(NoAuthoritativeZone(fqdn))
  {
  }

  /** Every lookup failing at the transport level ends in the not-found error
      for the original FQDN, never in a transport error. */
  lemma AllTransportErrors(c: Connector, fqdn: string)
    ensures FindZone(c, fqdn, (c': Connector, z: string) => LookupTransportErr) == Err(NoAuthoritativeZone(fqdn))
  {
  }

  /** The first qualifying candidate is what the search returns. */
  lemma FirstMatchIsResult(c: Connector, fqdn: string, lookup: (Connector, string) -> LookupOutcome, k: nat)
    requires IsFirstMatch(c, Candidates(fqdn), lookup, k)
    ensures FindZone(c, fqdn, lookup) == Ok(Candidates(fqdn)[k])
  {
  }

  /** The labels of a five-label FQDN with a trailing dot. */
  lemma FiveLabels(a: string, b: string, m: string, d: string, e: string)
    requires '.' !in a && '.' !in b && '.' !in m && '.' !in d && '.' !in e
    ensures Labels(a + "." + b + "." + m + "." + d + "." + e + ".") == [a, b, m, d, e]
  {
    var domain := a + "." + b + "." + m + "." + d + "." + e;
    assert TrimDot(domain + ".") == domain;
    assert domain + "." == a + "." + b + "." + m + "." + d + "." + e + ".";
    assert domain == a + "." + (b + "." + (m + "." + (d + "." + e)));
    SplitDotted(a, b + "." + (m + "." + (d + "." + e)));
    SplitDotted(b, m + "." + (d + "." + e));
    SplitDotted(m, d + "." + e);
    SplitDotted(d, e);
    SplitNoDot(e);
  }

  /** Nested enabled zones: the server knows `m.d.e` and `d.e` (say
      "bar.example.com" and "example.com"); for `a.b.m.d.e.` (say
      "_acme-challenge.foo.bar.example.com.") the two more specific candidates
      miss and `m.d.e` is found, not the broader `d.e`. */
  lemma NestedZoneScenario(c: Connector, a: string, b: string, m: string, d: string, e: string)
    requires '.' !in a && '.' !in b && '.' !in m && '.' !in d && '.' !in e
    ensures var zone := m + "." + d + "." + e;
            var parent := d + "." + e;
            var lookup := (c': Connector, z: string) =>
              if z == zone || z == parent then Decoded("ok", false) else Decoded("error", false);
            FindZone(c, a + "." + b + "." + m + "." + d + "." + e + ".", lookup) == Ok(zone)
  {
    var zone := m + "." + d + "." + e;
    var parent := d + "." + e;
    var lookup := (c': Connector, z: string) =>
      if z == zone || z == parent then Decoded("ok", false) else Decoded("error", false);
    var fqdn := a + "." + b + "." + m + "." + d + "." + e + ".";
    var cands := Candidates(fqdn);
    FiveLabels(a, b, m, d, e);
    LastCandidateIsLastLabel(fqdn);
    CandidateStep(fqdn, 3);
    CandidateStep(fqdn, 2);
    CandidateStep(fqdn, 1);
    CandidateStep(fqdn, 0);
    assert cands[2] == zone;
    assert |cands[1]| > |zone| > |parent|;
    assert |cands[0]| > |zone|;
    assert IsFirstMatch(c, cands, lookup, 2);
    FirstMatchIsResult(c, fqdn, lookup, 2);
  }
}
