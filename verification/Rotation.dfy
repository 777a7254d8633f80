/** Which certificates are due, and why the renewal loop of InitCerts leaves none behind. */
module Rotation {
  import opened Base
  import opened Pki
  import opened Tree
  import opened Completion
  import opened Regeneration
  import opened Chains
  import opened Walk

  /** Certificates under five years are short-lived. */
  predicate IsCertShortLived(c: Cert) {
    c.notAfter - c.notBefore < 5 * 365 * DAY
  }

  predicate Outdated(c: Cert, now: int) {
    now < c.notBefore || now > c.notAfter
  }

  predicate Expiring(c: Cert, now: int) {
    c.notAfter - now < (if IsCertShortLived(c) then 7 else 18) * MONTH
  }

  predicate Due(c: Cert, now: int) {
    Outdated(c, now) || Expiring(c, now)
  }

  /** What the walk function of certsToRegenerate appends for one visit: the path once for each reason. */
  function DueEntries(v: Visit, now: int): seq<Path> {
    (if Outdated(v.cert, now) then [v.path] else []) + (if Expiring(v.cert, now) then [v.path] else [])
  }

  function CertsToRegenerate(vs: seq<Visit>, now: int): seq<Path> {
    if vs == [] then [] else DueEntries(vs[0], now) + CertsToRegenerate(vs[1..], now)
  }

  lemma {:induction false} ListedIff(vs: seq<Visit>, now: int, q: Path)
    ensures q in CertsToRegenerate(vs, now) <==> exists v :: v in vs && v.path == q && Due(v.cert, now)
  {
    if vs != [] {
      assert vs == [vs[0]] + vs[1..];
      ListedIff(vs[1..], now, q);
    }
  }

  /** A path is listed exactly when the certificate it leads to is due. */
  lemma ListedIffDue(cs: Chains, now: int, q: Path)
    ensures q in CertsToRegenerate(AllVisits(cs), now) <==>
            (ChainCertAt(cs, q).Some? && Due(ChainCertAt(cs, q).value, now))
  {
    ListedIff(AllVisits(cs), now, q);
    if ChainCertAt(cs, q).Some? {
      VisitsAll(cs, Visit(q, ChainCertAt(cs, q).value));
    }
    forall v | v in AllVisits(cs) && v.path == q ensures ChainCertAt(cs, q) == Some(v.cert) {
      VisitsAll(cs, v);
    }
  }

  /** By age: a certificate issued at `issued` for `days` days is listed `t` seconds later if and only if it has less
      than 210 days left when issued for under five years, less than 540 days otherwise, is past its end, or the
      clock was set back by more than a second. */
  lemma ListedByAge(cs: Chains, q: Path, issued: int, days: int, t: int)
    requires ChainCertAt(cs, q).Some?
    requires ChainCertAt(cs, q).value.notBefore == issued - 1
    requires ChainCertAt(cs, q).value.notAfter == issued + days * 86400
    ensures q in CertsToRegenerate(AllVisits(cs), issued + t) <==>
              t < -1 || t > days * 86400 || t > (days - (if days < 1825 then 210 else 540)) * 86400
  {
    hide AllVisits, ChainCertAt;
    ListedIffDue(cs, issued + t, q);
    DueByAge(ChainCertAt(cs, q).value, issued, days, t);
  }

  lemma DueByAge(c: Cert, issued: int, days: int, t: int)
    requires c.notBefore == issued - 1 && c.notAfter == issued + days * 86400
    ensures Due(c, issued + t) <==>
              t < -1 || t > days * 86400 || t > (days - (if days < 1825 then 210 else 540)) * 86400
  {
  }

  const SAFE_DAYS := 210

  /** A certificate issued now is due again at once exactly when less than 210 days were asked for. */
  lemma FreshDueIff(c: Cert, lo: nat, now: int, days: int)
    requires Renewed(c, lo, now, days)
    ensures Due(c, now) <==> days < SAFE_DAYS
  {
  }

  /* ---- exactness over a run of renewals at one moment ---- */

  ghost predicate Covered(q: Path, calls: seq<Call>) {
    exists i :: 0 <= i < |calls| && calls[i].path <= q
  }

  lemma SameShapesResolve(cs: Chains, cs': Chains, q: Path)
    requires SameShapes(cs, cs')
    ensures ChainCertAt(cs', q).Some? <==> ChainCertAt(cs, q).Some?
    ensures q != [] && q[0] in cs ==> ChainDaysAt(cs', q) == ChainDaysAt(cs, q)
  {
    if q != [] && q[0] in cs {
      CertAtResolves(cs[q[0]], q[1..]);
      CertAtResolves(cs'[q[0]], q[1..]);
      assert NodeShape(cs'[q[0]]).days == cs'[q[0]].days && NodeShape(cs[q[0]]).days == cs[q[0]].days;
    }
  }

  lemma SameShapesTwice(a: Chains, b: Chains, c: Chains)
    requires SameShapes(a, b) && SameShapes(b, c)
    ensures SameShapes(a, c)
  {
  }

  /** After a run at one moment, a certificate at or below a listed path was issued at that moment for the validity its
      shape asks for; every other certificate is the one from before. */
  lemma {:induction false} RunExact(cs: Chains, w: World, calls: seq<Call>, cs': Chains, w': World, q: Path)
    requires Intact(cs, w) && Run(cs, w, calls, cs', w') && forall i :: 0 <= i < |calls| ==> calls[i].now == w.now
    ensures SameShapes(cs, cs') && Intact(cs', w')
    ensures !Covered(q, calls) ==> ChainCertAt(cs', q) == ChainCertAt(cs, q)
    ensures Covered(q, calls) && ChainCertAt(cs', q).Some? ==>
              q != [] && q[0] in cs && Renewed(ChainCertAt(cs', q).value, w.next, w.now, ChainDaysAt(cs, q))
    decreases |calls|
  {
    if calls != [] {
      hide Intact, SameShapes, ChainsPossible, ChainCertAt, ChainDaysAt, RegenerateChains, Covered, Renewed, Run;
      var c, rest := calls[0], calls[1..];
      assert w.(now := c.now) == w;
      var cs1, w1 := RunStep(cs, w, calls, cs', w');
      var _, _ := OneCallAt(cs, c, w, q);
      assert forall i :: 0 <= i < |rest| ==> rest[i] == calls[i + 1];
      RunExact(cs1, w1, rest, cs', w', q);
      SameShapesResolve(cs, cs1, q);
      SameShapesTwice(cs, cs1, cs');
      SameKeys(cs, cs1);
      CoveredStep(q, calls);
      if Covered(q, rest) && ChainCertAt(cs', q).Some? {
        RenewedEarlier(ChainCertAt(cs', q).value, w1.next, w.next, w.now, ChainDaysAt(cs1, q));
      }
    } else {
      hide Intact, SameShapes, ChainCertAt, ChainDaysAt, Renewed;
      SameShapesSelf(cs);
    }
  }

  lemma RenewedEarlier(c: Cert, hi: nat, lo: nat, now: int, days: int)
    requires Renewed(c, hi, now, days) && lo <= hi
    ensures Renewed(c, lo, now, days)
  {
  }

  lemma OneCallAt(cs: Chains, c: Call, w: World, q: Path) returns (cs1: Chains, w1: World)
    requires Intact(cs, w) && ChainsPossible(cs, c.path, c.choices) && RegenerateChains(cs, c.path, c.choices, w).COk?
    ensures RegenerateChains(cs, c.path, c.choices, w) == COk(cs1, w1)
    ensures Intact(cs1, w1) && SameShapes(cs, cs1) && Later(w, w1)
    ensures !(c.path <= q) ==> ChainCertAt(cs1, q) == ChainCertAt(cs, q)
    ensures c.path <= q && ChainCertAt(cs1, q).Some? ==>
              q != [] && q[0] in cs && Renewed(ChainCertAt(cs1, q).value, w.next, w.now, ChainDaysAt(cs, q))
  {
    hide Intact, NodeShape, CertAt, ChainDaysAt, RegenerateChains;
    RegenerateExact(cs, c.path, c.choices, w);
    cs1, w1 := RegenerateChains(cs, c.path, c.choices, w).cs, RegenerateChains(cs, c.path, c.choices, w).w;
  }

  lemma SameKeys(cs: Chains, cs': Chains)
    requires SameShapes(cs, cs')
    ensures cs.Keys == cs'.Keys
  {
  }

  lemma SameShapesSelf(cs: Chains)
    ensures SameShapes(cs, cs)
  {
  }

  lemma CoveredStep(q: Path, calls: seq<Call>)
    requires calls != []
    ensures Covered(q, calls) <==> calls[0].path <= q || Covered(q, calls[1..])
  {
  }

  /* ---- InitCerts ---- */

  /** `calls` are the renewals of InitCerts: one per listed path, in order, at one moment. */
  ghost predicate InitCalls(cs: Chains, now: int, calls: seq<Call>) {
    CallsFor(calls, CertsToRegenerate(AllVisits(cs), now), now)
  }

  ghost predicate CallsFor(calls: seq<Call>, paths: seq<Path>, now: int) {
    |calls| == |paths| && forall i :: 0 <= i < |calls| ==> calls[i].path == paths[i] && calls[i].now == now
  }

  /** After InitCerts a certificate is due exactly when it lies at or below a path that was due before and less than
      210 days of validity are asked for it. */
  lemma InitCertsExact(cs: Chains, w: World, calls: seq<Call>, cs': Chains, w': World, q: Path)
    requires Intact(cs, w) && InitCalls(cs, w.now, calls) && Run(cs, w, calls, cs', w')
    ensures q in CertsToRegenerate(AllVisits(cs'), w.now) <==>
            && ChainCertAt(cs, q).Some? && q != [] && q[0] in cs
            && BelowListed(q, CertsToRegenerate(AllVisits(cs), w.now))
            && ChainDaysAt(cs, q) < SAFE_DAYS
  {
    hide Intact, NodeShape, CertAt, AllVisits, ChainCertAt, ChainDaysAt, SameShapes, Due;
    var paths := CertsToRegenerate(AllVisits(cs), w.now);
    RunExact(cs, w, calls, cs', w', q);
    ListedIffDue(cs', w.now, q);
    SameShapesResolve(cs, cs', q);
    CertAtNonEmpty(cs, q);
    CoveredIffListed(cs, w.now, calls, q);
    if Covered(q, calls) {
      if ChainCertAt(cs', q).Some? {
        FreshDueIff(ChainCertAt(cs', q).value, w.next, w.now, ChainDaysAt(cs, q));
      }
    } else {
      ListedIffDue(cs, w.now, q);
      ListedBelow(q, paths);
    }
  }

  lemma CertAtNonEmpty(cs: Chains, q: Path)
    ensures ChainCertAt(cs, q).Some? ==> q != [] && q[0] in cs
  {
  }

  /** Some listed path is `q` or an ancestor of it. */
  ghost predicate BelowListed(q: Path, paths: seq<Path>) {
    exists i :: 0 <= i < |paths| && paths[i] <= q
  }

  lemma ListedBelow(q: Path, paths: seq<Path>)
    ensures q in paths ==> BelowListed(q, paths)
  {
  }

  lemma CoveredIffListed(cs: Chains, now: int, calls: seq<Call>, q: Path)
    requires InitCalls(cs, now, calls)
    ensures Covered(q, calls) <==> BelowListed(q, CertsToRegenerate(AllVisits(cs), now))
  {
  }

  /** Every requested validity is at least 210 days. */
  ghost predicate ValidityOk(cs: Chains) {
    forall q :: q != [] && q[0] in cs && ChainCertAt(cs, q).Some? ==> ChainDaysAt(cs, q) >= SAFE_DAYS
  }

  lemma ListedPaths(cs: Chains, now: int, path: Path)
    requires path in CertsToRegenerate(AllVisits(cs), now)
    ensures path != []
  {
    ListedIffDue(cs, now, path);
  }

  /** InitCerts converges: the loop leaves nothing to regenerate, although its list may name a path twice, or both an
      ancestor and its descendants. */
  lemma InitCertsConverges(cs: Chains, w: World, calls: seq<Call>, cs': Chains, w': World)
    requires Intact(cs, w) && InitCalls(cs, w.now, calls) && Run(cs, w, calls, cs', w') && ValidityOk(cs)
    ensures CertsToRegenerate(AllVisits(cs'), w.now) == []
    ensures Intact(cs', w') && SameShapes(cs, cs')
  {
    hide Intact, AllVisits, InitCalls, Run, SameShapes;
    RunKeepsIntact(cs, w, calls, cs', w');
    var after := CertsToRegenerate(AllVisits(cs'), w.now);
    if after != [] {
      InitCertsExact(cs, w, calls, cs', w', after[0]);
    }
  }

  /** Every path collected before the loop still resolves when its turn comes, so no renewal of the loop fails. */
  lemma InitCertsNeverFails(cs: Chains, w: World, calls: seq<Call>, cs1: Chains, w1: World, path: Path, ch: Choices)
    requires Intact(cs, w) && Run(cs, w, calls, cs1, w1) && path in CertsToRegenerate(AllVisits(cs), w.now)
    requires ChainsPossible(cs1, path, ch)
    ensures RegenerateChains(cs1, path, ch, w1).COk? && RegenerateChains(cs1, path, ch, w1).w.now == w1.now
  {
    hide Intact, AllVisits, Run;
    ListedIffDue(cs, w.now, path);
    RunKeepsIntact(cs, w, calls, cs1, w1);
    SameShapesResolve(cs, cs1, path);
    RegenerateExact(cs1, path, ch, w1);
  }

  /* ---- WhenToRotateAtEarliest ---- */

  function RotateAt(c: Cert): int {
    c.notAfter - (if IsCertShortLived(c) then 4 else 12) * MONTH
  }

  /** A certificate issued for under five years is to be rotated 120 days before its end, any other 360 days before. */
  lemma RotateByAge(c: Cert, issued: int, days: int)
    requires c.notBefore == issued - 1 && c.notAfter == issued + days * 86400
    ensures RotateAt(c) == issued + (days - (if days < 1825 then 120 else 360)) * 86400
  {
  }

  /** Go's zero time.Time. */
  const ZERO_TIME := 0

  ghost predicate DatesSet(vs: seq<Visit>) {
    forall v :: v in vs ==> RotateAt(v.cert) != ZERO_TIME
  }

  /** The first visit with the least rotation date; a date equal to the zero time counts as not set. */
  method WhenToRotateAtEarliest(vs: seq<Visit>) returns (certPath: Path, rotationDate: int)
    ensures vs == [] ==> certPath == [] && rotationDate == ZERO_TIME
    ensures vs != [] && DatesSet(vs) ==>
              exists i :: IsFirstLeast(vs, i) && certPath == vs[i].path && rotationDate == RotateAt(vs[i].cert)
  {
    certPath, rotationDate := [], ZERO_TIME;
    ghost var at := 0;
    for i := 0 to |vs|
      invariant i == 0 ==> certPath == [] && rotationDate == ZERO_TIME
      invariant i > 0 && DatesSet(vs) ==>
                  && 0 <= at < i && IsFirstLeast(vs[..i], at) && certPath == vs[at].path
                  && rotationDate == RotateAt(vs[at].cert)
    {
      var rotateAt := RotateAt(vs[i].cert);
      if rotationDate == ZERO_TIME || rotateAt < rotationDate {
        certPath, rotationDate, at := vs[i].path, rotateAt, i;
      }
      assert vs[i] in vs;
    }
    assert vs[..|vs|] == vs;
  }

  ghost predicate IsFirstLeast(vs: seq<Visit>, i: int) {
    && 0 <= i < |vs|
    && (forall j :: 0 <= j < |vs| ==> RotateAt(vs[i].cert) <= RotateAt(vs[j].cert))
    && (forall j :: 0 <= j < i ==> RotateAt(vs[i].cert) < RotateAt(vs[j].cert))
  }

  /** While nothing is due, the earliest rotation lies at least 90 days ahead. */
  lemma RotationSlack(cs: Chains, now: int, v: Visit)
    requires CertsToRegenerate(AllVisits(cs), now) == [] && v in AllVisits(cs)
    ensures RotateAt(v.cert) >= now + 3 * MONTH
  {
    ListedIff(AllVisits(cs), now, v.path);
    assert !Due(v.cert, now);
  }
}
