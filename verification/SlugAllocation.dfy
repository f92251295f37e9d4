/** Choosing a workspace slug at registration (apps/api/src/modules/auth/auth.service.ts). */
module SlugAllocation {
  import opened Text

  /** The slug tried after `n` occupied ones. */
  function Candidate(base: string, n: nat): string {
    if n == 0 then base else base + "-" + Decimal(n)
  }

  lemma CandidatesDiffer(base: string, m: nat, n: nat)
    requires Candidate(base, m) == Candidate(base, n)
    ensures m == n
  {
    if m == 0 || n == 0 {
      assert |Candidate(base, m)| == |Candidate(base, n)|;
    } else {
      assert Candidate(base, m)[|base| + 1..] == Decimal(m);
      assert Candidate(base, n)[|base| + 1..] == Decimal(n);
      DecimalInjective(m, n);
    }
  }

  /** `n` occupied candidates take up `n` of the existing slugs. */
  lemma {:induction false} OccupiedFit(existing: set<string>, base: string, n: nat)
    requires forall k | 0 <= k < n :: Candidate(base, k) in existing
    ensures n <= |existing|
  {
    if n > 0 {
      var last := Candidate(base, n - 1);
      forall k | 0 <= k < n - 1 ensures Candidate(base, k) in existing - {last} {
        if Candidate(base, k) == last {
          CandidatesDiffer(base, k, n - 1);
        }
      }
      OccupiedFit(existing - {last}, base, n - 1);
    }
  }

  /** The registration loop: `probes` counts the lookups it makes. */
  method AllocateSlug(existing: set<string>, baseSlug: string) returns (slug: string, suffix: nat, probes: nat)
    ensures slug !in existing
    ensures slug == Candidate(baseSlug, suffix)
    ensures forall k | 0 <= k < suffix :: Candidate(baseSlug, k) in existing
    ensures suffix == 0 <==> baseSlug !in existing
    ensures probes == suffix + 1 <= |existing| + 1
  {
    slug, suffix, probes := baseSlug, 0, 0;
    while true
      invariant slug == Candidate(baseSlug, suffix) && probes == suffix
      invariant forall k | 0 <= k < suffix :: Candidate(baseSlug, k) in existing
      invariant suffix <= |existing|
      decreases |existing| - suffix
    {
      var taken := slug in existing;
      probes := probes + 1;
      if !taken { break; }
      assert Candidate(baseSlug, suffix) in existing;
      OccupiedFit(existing, baseSlug, suffix + 1);
      suffix := suffix + 1;
      slug := baseSlug + "-" + Decimal(suffix);
    }
    assert baseSlug == Candidate(baseSlug, 0);
  }
}
