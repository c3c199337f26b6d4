/** Builder and validator of tool-surface proofs agree: proofs outlive every host change but a causal one. */
module ToolSurfaceDrift {
  import opened Wrappers
  import opened Json
  import opened ToolSurface
  import CJ = CanonicalJson
  import Sorting
  import Text

  /** Digests look like digests. */
  ghost predicate HexDigests(d: Digests) {
    && (forall x :: d.isSha(d.file(x))) && (forall x :: d.isSha(d.json(x))) && (forall x :: d.isSha(d.proof(x)))
  }

  /** Resolved paths and reported versions are not blank. */
  ghost predicate NamesThings(h: Host) {
    && (h.binary.Some? ==> !Blank(h.binary.value))
    && (forall path :: !Blank(h.resolve(path)))
    && (forall path :: h.version(path).Some? ==> !Blank(h.version(path).value))
  }

  lemma ToolsTellProfile(p: Profile, q: Profile)
    requires SameTools(ProfileTools(p), ProfileTools(q))
    ensures p == q
  {
    assert |multiset(ProfileTools(p))| == |ProfileTools(p)| && |multiset(ProfileTools(q))| == |ProfileTools(q)|;
  }

  lemma ProfileIsNormal(p: Profile)
    ensures NormalizedTools(ProfileTools(p)) == Some(p)
  {
    var q := NormalizedTools(ProfileTools(p));
    assert q.Some?;
    ToolsTellProfile(p, q.value);
  }

  lemma SnapshotFacts(h: Host, home: string, model: string)
    ensures CatalogSnapshot(h, home, model).Success? ==> !Blank(model)
  {
  }

  lemma LockdownFacts(d: Digests, h: Host, home: string, model: string, p: Profile, projection: Option<string>,
                      config: Config, snapshot: Snapshot)
    ensures Lockdown(d, h, home, model, p, projection, config, snapshot).Success? ==> (Mutable(p) <==> projection.None?)
  {
  }

  lemma ProjectionFacts(d: Digests, h: Host, home: string, model: string, path: string, entry: Json)
    requires HexDigests(d)
    ensures var r := CatalogProjection(d, h, home, model, path, entry); r.Success? ==> d.isSha(r.value.1)
  {
  }

  /** A read-only profile has a projection to start from, a mutating one has none. */
  lemma LiveFacts(d: Digests, h: Host, home: string, model: string, p: Profile, projection: Option<string>)
    requires HexDigests(d) && LiveInputs(d, h, home, model, p, projection).Success?
    ensures var live := LiveInputs(d, h, home, model, p, projection).value;
            && d.isSha(live.entrySha256) && !Blank(model)
            && (Mutable(p) ==> live.startup.None? && live.projectionSha256.None?)
            && (!Mutable(p) ==>
                  live.startup.Some? && live.projectionSha256.Some? && d.isSha(live.projectionSha256.value))
  {
    SnapshotFacts(h, home, model);
    var config, snapshot := h.config(home).value, CatalogSnapshot(h, home, model).value;
    LockdownFacts(d, h, home, model, p, projection, config, snapshot);
    if projection.Some? {
      ProjectionFacts(d, h, home, model, projection.value, snapshot.entry);
    }
  }

  /** A proof that the builder seals has no fault of shape, and the host it was built on agrees with its claims. */
  lemma BuiltProofIsSound(d: Digests, h: Host, c: Captured, codexHome: string, model: string, tools: seq<Tool>,
                          projection: Option<string>, b: Binding, process: Process)
    requires HexDigests(d) && NamesThings(h)
    requires Buildable(d, h, c, codexHome, model, tools, projection, b, process)
    ensures var proof := ProofOf(d, c, b, process, model, NormalizedTools(tools).value);
            SelfConsistent(d, proof, model, tools) && HostAgrees(d, h, proof.body.claims)
  {
    var p := NormalizedTools(tools).value;
    var proof := ProofOf(d, c, b, process, model, p);
    ClaimsAreTheBinding(d, h, b, p);
    assert proof.body.claims == b.body;
    CausalReflexive(b.body);
    BindingShape(d, h, b, p);
    ProofShape(d, proof, model, p);
  }

  /** The profile that the builder writes is the one the binding holds. */
  lemma ClaimsAreTheBinding(d: Digests, h: Host, b: Binding, p: Profile)
    requires BindingOk(d, h, b) && b.body.requestedTools == ProfileTools(p)
    ensures b.body.toolProfile == p
  {
    ProfileIsNormal(p);
    var live, current := CurrentFacts(d, h, b.body);
    assert SameField(ToolProfile, b.body, current);
  }

  ghost predicate GoodTexts(c: Body) {
    !Blank(c.codexBinary) && !Blank(c.codexHome) && !Blank(c.codexVersion) && !Blank(c.requestedModel)
  }

  /** What `ShapeOk` asks of the causal claims. */
  ghost predicate GoodCausal(d: Digests, c: Body, p: Profile) {
    && GoodTexts(c) && CJ.SameJson(c.effectPolicy, EffectPolicy(p)) && c.toolProfile == p
    && d.isSha(c.codexBinarySha256) && d.isSha(c.modelEntrySha256) && d.isSha(c.lockdownConfigSha256)
    && StartupOk(c, Some(p)) && ProjectionHashOk(d, c, Some(p))
  }

  lemma BindingShape(d: Digests, h: Host, b: Binding, p: Profile)
    requires HexDigests(d) && NamesThings(h) && BindingOk(d, h, b) && b.body.toolProfile == p
    ensures GoodCausal(d, b.body, p)
  {
    var live, current := CurrentFacts(d, h, b.body);
    LiveFacts(d, h, h.resolve(b.body.codexHome), b.body.requestedModel, current.toolProfile, b.body.startupConfig);
    HostTexts(d, h, h.resolve(b.body.codexHome), b.body.requestedModel, current.toolProfile, live);
    HostShape(d, h, h.resolve(b.body.codexHome), b.body.requestedModel, current.toolProfile, live);
    ShapeIsCausal(d, b.body, current, current.toolProfile);
  }

  lemma HostTexts(d: Digests, h: Host, home: string, model: string, p: Profile, live: Live)
    requires NamesThings(h) && !Blank(home) && !Blank(model)
    requires h.binary.Some? && CurrentBody(d, h, home, model, p, live).Success?
    ensures GoodTexts(CurrentBody(d, h, home, model, p, live).value)
  {
    assert !Blank(h.version(h.binary.value).value);
  }

  lemma HostShape(d: Digests, h: Host, home: string, model: string, p: Profile, live: Live)
    requires HexDigests(d) && h.binary.Some? && CurrentBody(d, h, home, model, p, live).Success?
    requires GoodTexts(CurrentBody(d, h, home, model, p, live).value) && d.isSha(live.entrySha256)
    requires Mutable(p) ==> live.startup.None? && live.projectionSha256.None?
    requires !Mutable(p) ==> live.startup.Some? && live.projectionSha256.Some? && d.isSha(live.projectionSha256.value)
    ensures GoodCausal(d, CurrentBody(d, h, home, model, p, live).value, p)
  {
    var c := CurrentBody(d, h, home, model, p, live).value;
    CopiesShape(d, p, live, c, h.bytes(h.binary.value).value);
  }

  lemma CopiesShape(d: Digests, p: Profile, live: Live, c: Body, bytes: string)
    requires HexDigests(d) && GoodTexts(c) && d.isSha(live.entrySha256)
    requires Mutable(p) ==> live.startup.None? && live.projectionSha256.None?
    requires !Mutable(p) ==> live.startup.Some? && live.projectionSha256.Some? && d.isSha(live.projectionSha256.value)
    requires c.toolProfile == p && c.effectPolicy == EffectPolicy(p) && c.codexBinarySha256 == d.file(bytes)
    requires c.modelEntrySha256 == live.entrySha256 && c.lockdownConfigSha256 == Sha(d, live.lockdown)
    requires c.startupConfig == live.startup && c.catalogProjectionSha256 == live.projectionSha256
    ensures GoodCausal(d, c, p)
  {
    PolicyIsItself(p);
  }

  lemma PolicyIsItself(p: Profile)
    ensures CJ.SameJson(EffectPolicy(p), EffectPolicy(p))
  {
    CJ.SameIffCanonical(EffectPolicy(p), EffectPolicy(p));
  }

  lemma ShapeIsCausal(d: Digests, c: Body, current: Body, p: Profile)
    requires GoodCausal(d, current, p) && SameCausal(c, current)
    ensures GoodCausal(d, c, p)
  {
    assert SameField(ToolProfile, c, current) && SameField(CodexBinary, c, current);
    assert SameField(CodexBinarySha256, c, current) && SameField(CodexVersion, c, current);
    assert SameField(CodexHome, c, current) && SameField(ModelEntrySha256, c, current);
    assert SameField(EffectPolicyField, c, current) && SameField(StartupConfig, c, current);
    assert SameField(CatalogProjectionSha256, c, current) && SameField(RequestedModel, c, current);
    assert SameField(LockdownConfigSha256, c, current);
    JsonTransitive(c.effectPolicy, current.effectPolicy, EffectPolicy(p));
  }

  lemma ProofShape(d: Digests, v: Proof, model: string, p: Profile)
    requires HexDigests(d) && GoodCausal(d, v.body.claims, p) && WholeFileHashesOk(d, v.body.claims)
    requires Sha(d, v.body.claims.lockdownConfig) == v.body.claims.lockdownConfigSha256
    requires v.body.proofType == PROOF_TYPE && v.body.source == SOURCE && v.body.verified && d.proof(v.body) == v.seal
    requires v.body.claims.requestedModel == model == v.body.observedModel
    requires v.body.claims.requestedTools == ProfileTools(p) == v.body.observedTools
    requires d.isSha(v.body.definitionsSha256) && d.isSha(v.body.requestSha256)
    ensures ShapeOk(d, v, model, Some(p))
  {
    forall e: ShapeError ensures !Faulty(d, v, model, Some(p), e) {
    }
  }

  /**
   The life of a proof: on any later host it validates exactly when that host would freeze the same causal inputs as
   the one it was built on. Nothing else about the host matters, and no causal change goes unnoticed.
   */
  lemma ProofLivesWhileCausalInputsLast(d: Digests, built: Host, later: Host, c: Captured, codexHome: string,
                                        model: string, tools: seq<Tool>, projection: Option<string>, b: Binding,
                                        process: Process)
    requires HexDigests(d) && NamesThings(built)
    requires Buildable(d, built, c, codexHome, model, tools, projection, b, process)
    ensures var proof := ProofOf(d, c, b, process, model, NormalizedTools(tools).value);
            var before, now := CurrentFor(d, built, proof.body.claims), CurrentFor(d, later, proof.body.claims);
            && before.Success?
            && (SelfConsistent(d, proof, model, tools) && HostAgrees(d, later, proof.body.claims)
                <==> now.Success? && SameCausal(before.value, now.value))
  {
    BuiltProofIsSound(d, built, c, codexHome, model, tools, projection, b, process);
    var claims := ProofOf(d, c, b, process, model, NormalizedTools(tools).value).body.claims;
    AgreementIff(claims, CurrentFor(d, built, claims), CurrentFor(d, later, claims));
  }

  lemma AgreementIff(claims: Body, before: Result<Body, HostError>, now: Result<Body, HostError>)
    requires before.Success? && SameCausal(claims, before.value)
    ensures now.Success? && SameCausal(claims, now.value) <==> now.Success? && SameCausal(before.value, now.value)
  {
    CausalSymmetric(claims, before.value);
    if now.Success? && SameCausal(claims, now.value) {
      CausalTransitive(before.value, claims, now.value);
    }
    if now.Success? && SameCausal(before.value, now.value) {
      CausalTransitive(claims, before.value, now.value);
    }
  }

  // ---------- what may change ----------

  /**
   The hosts differ at most in unrelated user preferences, in the order of configured servers, in other catalog
   entries, and so in the bytes of both files.
   */
  ghost predicate DifferOnlyInProvenance(a: Host, b: Host, codexHome: string, model: string) {
    var home := a.resolve(codexHome);
    && a.binary == b.binary && a.version == b.version && a.bytes == b.bytes
    && a.resolve == b.resolve && a.absolute == b.absolute && a.projection == b.projection
    && a.config(home).Some? && b.config(home).Some? && a.catalog(home).Some? && b.catalog(home).Some?
    && SameServers(a.config(home).value.servers, b.config(home).value.servers)
    && a.catalog(home).value.path == b.catalog(home).value.path
    && Selected(a.catalog(home).value.entries, model) == Selected(b.catalog(home).value.entries, model)
  }

  ghost predicate SameServers(a: Option<seq<string>>, b: Option<seq<string>>) {
    if a.Some? then b.Some? && multiset(a.value) == multiset(b.value) else b.None?
  }

  /** Whole-file bytes and unrelated preferences may change; what the host would freeze stays causally the same. */
  lemma ProvenanceIsNotCausal(d: Digests, a: Host, b: Host, c: Body)
    requires DifferOnlyInProvenance(a, b, c.codexHome, c.requestedModel)
    ensures CurrentFor(d, a, c).Success? <==> CurrentFor(d, b, c).Success?
    ensures CurrentFor(d, a, c).Success? ==> SameCausal(CurrentFor(d, a, c).value, CurrentFor(d, b, c).value)
  {
    var home, profile := a.resolve(c.codexHome), NormalizedTools(c.requestedTools);
    if profile.Some? && a.binary.Some? {
      var p := profile.value;
      LiveAlike(d, a, b, c.codexHome, c.requestedModel, p, c.startupConfig);
      var la := LiveInputs(d, a, home, c.requestedModel, p, c.startupConfig);
      var lb := LiveInputs(d, b, home, c.requestedModel, p, c.startupConfig);
      if la.Success? {
        BodyAlike(d, a, b, home, c.requestedModel, p, la.value, lb.value);
      }
    }
  }

  ghost predicate AlikeLive(a: Live, b: Live) {
    a == b.(configSha256 := a.configSha256, catalogSha256 := a.catalogSha256)
  }

  lemma LiveAlike(d: Digests, a: Host, b: Host, codexHome: string, model: string, p: Profile,
                  projection: Option<string>)
    requires DifferOnlyInProvenance(a, b, codexHome, model)
    ensures var home := a.resolve(codexHome);
            var la, lb := LiveInputs(d, a, home, model, p, projection), LiveInputs(d, b, home, model, p, projection);
            (la.Success? <==> lb.Success?) && (la.Success? ==> AlikeLive(la.value, lb.value))
  {
    var home := a.resolve(codexHome);
    var sa, sb := CatalogSnapshot(a, home, model), CatalogSnapshot(b, home, model);
    SnapshotsAlike(a, b, home, model);
    if sa.Success? {
      LockdownsAlike(d, a, b, home, model, p, projection, a.config(home).value, b.config(home).value, sa.value,
                     sb.value);
      if projection.Some? {
        ProjectionsAlike(d, a, b, home, model, projection.value, sa.value.entry);
      }
    }
  }

  ghost predicate AlikeSnapshots(a: Snapshot, b: Snapshot) {
    a.path == b.path && a.entry == b.entry
  }

  lemma SnapshotsAlike(a: Host, b: Host, home: string, model: string)
    requires a.catalog(home).Some? && b.catalog(home).Some?
    requires a.catalog(home).value.path == b.catalog(home).value.path
    requires Selected(a.catalog(home).value.entries, model) == Selected(b.catalog(home).value.entries, model)
    ensures var sa, sb := CatalogSnapshot(a, home, model), CatalogSnapshot(b, home, model);
            if sa.Success? then sb.Success? && AlikeSnapshots(sa.value, sb.value) else sb.Failure?
  {
  }

  lemma ProjectionsAlike(d: Digests, a: Host, b: Host, home: string, model: string, path: string, entry: Json)
    requires a.resolve == b.resolve && a.absolute == b.absolute && a.projection == b.projection
    ensures CatalogProjection(d, a, home, model, path, entry) == CatalogProjection(d, b, home, model, path, entry)
  {
  }

  lemma LockdownsAlike(d: Digests, a: Host, b: Host, home: string, model: string, p: Profile,
                       projection: Option<string>, ca: Config, cb: Config, sa: Snapshot, sb: Snapshot)
    requires a.resolve == b.resolve && a.absolute == b.absolute && a.projection == b.projection
    requires SameServers(ca.servers, cb.servers) && AlikeSnapshots(sa, sb)
    ensures Lockdown(d, a, home, model, p, projection, ca, sa) == Lockdown(d, b, home, model, p, projection, cb, sb)
  {
    if projection.Some? {
      ProjectionsAlike(d, a, b, home, model, projection.value, sa.entry);
    }
    assert StartCatalog(d, a, home, model, p, projection, sa) == StartCatalog(d, b, home, model, p, projection, sb);
    ServerOrderIsImmaterial(StartCatalog(d, a, home, model, p, projection, sa), ca.servers, cb.servers);
  }

  lemma ServerOrderIsImmaterial(catalog: Result<string, HostError>, a: Option<seq<string>>, b: Option<seq<string>>)
    requires SameServers(a, b)
    ensures WithServers(catalog, a) == WithServers(catalog, b)
  {
    if a.Some? {
      ServersAlike(a.value, b.value);
    }
  }

  lemma ServersAlike(a: seq<string>, b: seq<string>)
    requires multiset(a) == multiset(b)
    ensures Sorting.Sort(Text.LexLe, a) == Sorting.Sort(Text.LexLe, b)
    ensures (exists name :: name in a && Blank(name)) <==> (exists name :: name in b && Blank(name))
  {
    Text.LexIsLinear();
    Sorting.SortIgnoresInputOrder(Text.LexLe, a, b);
    assert forall name :: name in a <==> name in multiset(a);
    assert forall name :: name in b <==> name in multiset(b);
  }

  lemma BodyAlike(d: Digests, a: Host, b: Host, home: string, model: string, p: Profile, la: Live, lb: Live)
    requires a.binary == b.binary && a.binary.Some? && a.version == b.version && a.bytes == b.bytes
    requires AlikeLive(la, lb)
    ensures var ra, rb := CurrentBody(d, a, home, model, p, la), CurrentBody(d, b, home, model, p, lb);
            (ra.Success? <==> rb.Success?) && (ra.Success? ==> SameCausal(ra.value, rb.value))
  {
    var ra, rb := CurrentBody(d, a, home, model, p, la), CurrentBody(d, b, home, model, p, lb);
    if ra.Success? {
      var same := ra.value.(userConfigSha256 := rb.value.userConfigSha256,
                            modelCatalogSha256 := rb.value.modelCatalogSha256);
      assert same == rb.value;
      CausalReflexive(ra.value);
      forall f: CausalField ensures SameField(f, ra.value, rb.value) {
        assert SameField(f, ra.value, ra.value);
      }
    }
  }
}
