/**
 One concrete workspace: a collection holding a single flag. It shows that the
 assumptions about definitions, codecs and digests can be met together, and
 spells out failures in it: the lost update of `EqualTimesLoseAnUpdate`, for two
 tabs that flip the flag at the same millisecond, and initialisations that reject
 after they have created the flag, in their verifying read or, beside a second
 flag in an older schema version, in a rewrite.
 */
module FlagWorkspace {
  import opened Basics
  import opened LocalDataContent
  import opened LocalDataRoundTrip
  import opened CommitPlan
  import opened CommitPlanLaws
  import opened LocalDataProtocol
  import opened LocalDataGuarantees
  import opened LocalDataInvariant
  import opened LocalDataInitialisation
  import opened LocalDataRecovery

  /** The identifier "a", used for the collection, its record, its lookup key and its codec. */
  const A: Text := [0x61]

  function Digits(last: CodeUnit): Text { seq(42, _ => 0x41 as CodeUnit) + [last] }

  function Normalize(x: Json): Option<Json> { if x.Bool? then Some(x) else None }

  function Serialize(d: Json): Text { if d == Bool(true) then [0x31] else [0x30] }

  function Records(d: Json): seq<LocalRecord> { [LocalRecord(A, d)] }

  function Join(records: seq<LocalRecord>, schemaVersion: int): Json
  {
    if |records| == 1 then records[0].value else Json.Null
  }

  function Encode(input: EncodeInput): Option<EncodedRecord>
  {
    if input.id == A && input.value.Bool? then Some(EncodedRecord(A, Serialize(input.value))) else None
  }

  function Decode(input: DecodeInput): Option<LocalRecord>
  {
    if input.payload == [0x31] then Some(LocalRecord(A, Bool(true)))
    else if input.payload == [0x30] then Some(LocalRecord(A, Bool(false)))
    else None
  }

  function ContentOf(b: bool): seq<RecordContent> { [RecordContent(A, 0, A, Serialize(Bool(b)), 1)] }

  function Digest(x: DigestInput): Text
  {
    if x.content == ContentOf(true) then Digits(0x42) else if x.content == ContentOf(false) then Digits(0x43) else []
  }

  function References(d: Json): set<FileReference> { {} }

  function FileKey(collection: Text, digest: Text): Text { digest }

  /** A collection of one flag under this identifier, in this schema version. */
  function FlagOf(c: Text, version: nat): Definition
  {
    Definition(c, c, version, 1, 10, 1, Normalize, Serialize, Records, Join, References)
  }

  const FLAG: Definition := FlagOf(A, 1)

  const PLAIN: Codec := Codec(A, None, Encode, Decode, Digest, FileKey)

  const WORKSPACE: Config := Config(map[A := FLAG], PLAIN)

  lemma AIsBounded()
    ensures Trim(A) == A && BoundedIdentifier(A, MAX_IDENTIFIER_LENGTH) == Some(A)
  {
    assert A[1..] == [] && A[..0] == [];
  }

  lemma DigitsAreDigest(last: CodeUnit)
    requires Base64UrlUnit(last)
    ensures IsDigest(Digits(last))
  {
  }

  lemma FlagIsLawful(c: Text, version: nat)
    ensures LawfulDefinition(FlagOf(c, version))
  {
    AIsBounded();
    var definition := FlagOf(c, version);
    forall d: Json | Normal(definition, d)
      ensures definition.normalize(definition.join(Identified(definition.records(d)), version)) == Some(d)
    {
      assert Identified(Records(d)) == [LocalRecord(A, d)];
    }
  }

  lemma PlainIsLawful()
    ensures LawfulCodec(PLAIN) && InjectiveDigest(PLAIN)
  {
    AIsBounded();
    assert Digits(0x42)[42] != Digits(0x43)[42];
    assert !IsDigest([]);
  }

  /** The assumed laws hold of a real configuration. */
  lemma AssumptionsAreConsistent()
    ensures ValidConfig(WORKSPACE)
  {
    hide LawfulDefinition, LawfulCodec, InjectiveDigest;
    FlagIsLawful(A, 1);
    PlainIsLawful();
  }

  function Stored(c: Text, b: bool): StoredRecord { StoredRecord((c, A), c, A, 0, A, Serialize(Bool(b)), 1) }

  function DigestFor(b: bool): Text { Digits(if b then 0x42 else 0x43) }

  lemma FlagDigest(c: Text, version: int, b: bool)
    ensures CollectionDigest(PLAIN, c, version, 1, [Stored(c, b)]) == DigestFor(b) && IsDigest(DigestFor(b))
  {
    assert ContentOfRecords([Stored(c, b)]) == ContentOf(b);
    assert ContentOf(true)[0].payload != ContentOf(false)[0].payload;
    DigitsAreDigest(0x42);
    DigitsAreDigest(0x43);
  }

  lemma FlagIsStorable(c: Text, version: nat, b: bool, nonce: nat)
    ensures RecordStorable(FlagOf(c, version), PLAIN, LocalRecord(A, Bool(b)), nonce)
    ensures StoredForm(FlagOf(c, version), PLAIN, LocalRecord(A, Bool(b)), 0, nonce) == Stored(c, b)
  {
    AIsBounded();
    assert Serialize(Bool(b))[1..] == [];
  }

  lemma FlagIsCounted(c: Text, b: bool)
    ensures TotalBytes([Stored(c, b)]) == 1 && ByteLength(Serialize(Bool(b))) == 1
  {
    assert [Stored(c, b)][..0] == [] && Serialize(Bool(b))[1..] == [];
  }

  /** Either flag can be written, as one record of one byte. */
  lemma FlagIsPrepared(c: Text, version: nat, b: bool, nonces: nat -> nat)
    ensures Prepared(FlagOf(c, version), PLAIN, Bool(b), nonces)
        == Some(Content(Bool(b), [Stored(c, b)], 1, DigestFor(b)))
  {
    hide RecordStorable, StoredForm, TotalBytes, ByteLength, CollectionDigest, IsDigest, Serialize;
    FlagIsStorable(c, version, b, nonces(0));
    assert AllStorable(FlagOf(c, version), PLAIN, Records(Bool(b)), nonces);
    assert StoredForms(FlagOf(c, version), PLAIN, Records(Bool(b)), nonces) == [Stored(c, b)];
    FlagIsCounted(c, b);
    FlagDigest(c, version, b);
  }

  // ---------- Two tabs, one millisecond ----------

  const STAMP: Stamp := Stamp(7, (c: Text, i: nat) => 0)

  /** The other tab, in the same millisecond. */
  const OTHER_TAB: Stamp := Stamp(7, (c: Text, i: nat) => 1)

  function Flip(documents: map<Text, Json>): Option<(map<Text, Json>, Json)>
  {
    if A in documents && documents[A].Bool? then Some((map[A := Bool(!documents[A].b)], Json.Null)) else None
  }

  const FLIP: Intent := Update({A}, Flip, map[], false)

  const CLEARED: Manifest := Manifest(A, 1, A, 1, 1, 1, Digits(0x43), Application, 3, A, None)

  /** The workspace with the flag cleared. */
  const START: Store := Store(map[A := Held(CLEARED, [Stored(A, false)], Bool(false), map[])], {})

  lemma StartReadsBack()
    ensures StoreOK(WORKSPACE, START)
  {
    AssumptionsAreConsistent();
    FlagIsPrepared(A, 1, false, NoncesFor(STAMP, A));
    DigitsAreDigest(0x43);
    PreparedIsHeldOK(WORKSPACE, A, Bool(false), NoncesFor(STAMP, A), CLEARED);
  }

  function Flipped(): Write
  {
    Write(Content(Bool(true), [Stored(A, true)], 1, Digits(0x42)),
          Manifest(A, 1, A, 2, 1, 1, Digits(0x42), Application, 7, A, None), {}, map[])
  }

  lemma FlipIsDrafted()
    ensures DraftUpdate(WORKSPACE, A, SeenAt(START, A), Bool(true), map[], false, STAMP) == Drafted(Flipped())
  {
    FlagIsPrepared(A, 1, true, NoncesFor(STAMP, A));
    DigitsAreDigest(0x42);
    assert Digits(0x42)[42] != Digits(0x43)[42];
    assert Serialize(Bool(true)) != Serialize(Bool(false));
    assert FileKeys(WORKSPACE, A, Dropped({}, {})) == {};
    assert Bodies(map[]) == map[];
  }

  lemma FlipIsAllowed()
    ensures IntentOK(WORKSPACE, FLIP)
  {
  }

  lemma FlipProceeds()
    ensures IntentOK(WORKSPACE, FLIP)
    ensures PlanOf(WORKSPACE, FLIP, SeenIn(START, FLIP.collections), STAMP)
        == Proceed(Change(map[A := Some(CLEARED)], map[A := Flipped()]), Json.Null)
  {
    hide DraftUpdate, Flipped, IntentOK;
    FlipIsDrafted();
    FlipIsAllowed();
    var seen := SeenIn(START, FLIP.collections);
    assert Documents(seen) == map[A := Bool(false)];
    var drafts := DraftsOf(WORKSPACE, FLIP, seen, map[A := Bool(true)], STAMP);
    assert drafts == map[A := Drafted(Flipped())];
    var writes := map c | c in drafts && drafts[c].Drafted? :: drafts[c].write;
    assert A in writes && writes == map[A := Flipped()];
    assert ExpectedOf(seen) == map[A := Some(CLEARED)];
  }

  lemma FlippedOnce()
    ensures DocumentsOf(ApplyChange(START, Change(map[A := Some(CLEARED)], map[A := Flipped()])))
        == map[A := Bool(true)]
  {
  }

  /**
   Two tabs flip the flag at the same millisecond. Both are told that their
   update was saved, and the flag has been flipped once.
   */
  lemma TwoFlipsOneChange() returns (steps: seq<Step>)
    ensures RunFrom(WORKSPACE, START, steps)
    ensures var w := Reached(WORKSPACE, START, steps);
      && 0 in w.operations && w.operations[0].phase == Finished(Saved(Json.Null))
      && 1 in w.operations && w.operations[1].phase == Finished(Saved(Json.Null))
      && DocumentsOf(w.store) == map[A := Bool(true)]
  {
    hide PlanOf, ValidConfig, IntentOK, StoreOK;
    AssumptionsAreConsistent();
    StartReadsBack();
    FlipProceeds();
    FlippedOnce();
    PlaintextDrawsNoNonces();
    var w: World;
    PlanIgnoresNonces(WORKSPACE, FLIP, SeenIn(START, FLIP.collections), STAMP, OTHER_TAB);
    steps, w := EqualTimesLoseAnUpdate(WORKSPACE, START, FLIP, STAMP, OTHER_TAB);
  }

  lemma PlaintextDrawsNoNonces()
    ensures NonceFree(PLAIN)
  {
  }

  // ---------- A creation that rejects ----------

  const CLEAR: Intent := Create({A}, map[A := Seed(Bool(false), Empty, None)], false, {})

  const NOTHING: Store := Store(map[], {})

  lemma ClearIsDrafted()
    ensures DraftCreate(WORKSPACE, A, Absent, Some(Seed(Bool(false), Empty, None)), false, STAMP).Drafted?
    ensures DraftCreate(WORKSPACE, A, Absent, Some(Seed(Bool(false), Empty, None)), false,
                        STAMP).write.content.document == Bool(false)
  {
    FlagIsPrepared(A, 1, false, NoncesFor(STAMP, A));
    DigitsAreDigest(0x43);
  }

  lemma ClearProceeds()
    ensures CanCreate(WORKSPACE, NOTHING, CLEAR, STAMP)
    ensures DocumentsOf(ApplyChange(NOTHING, CreatingFlight(WORKSPACE, NOTHING, CLEAR, STAMP).change))
        == map[A := Bool(false)]
  {
    hide DraftCreate;
    ClearIsDrafted();
    var seen: map<Text, Seen> := map[A := Absent];
    assert FoundFor(NOTHING, CLEAR) == seen;
    var draft := DraftCreate(WORKSPACE, A, Absent, Some(Seed(Bool(false), Empty, None)), false, STAMP);
    var drafts := DraftsOf(WORKSPACE, CLEAR, seen, SeedInputs(CLEAR), STAMP);
    assert drafts == map[A := draft];
    var writes := map c | c in drafts && drafts[c].Drafted? :: drafts[c].write;
    assert A in writes && writes == map[A := draft.write];
    assert A in {A} - NOTHING.held.Keys;
  }

  /** The flag has been created, and the call that created it rejects with a timeout. */
  lemma CreationTimesOut() returns (steps: seq<Step>)
    ensures RunFrom(WORKSPACE, NOTHING, steps)
    ensures var w := Reached(WORKSPACE, NOTHING, steps);
      && 0 in w.operations && w.operations[0].phase == Finished(Unverified(TimedOut, true))
      && OneEntry(w.log, 0, 0) && DocumentsOf(w.store) == map[A := Bool(false)]
  {
    hide PlanOf, ValidConfig, IntentOK, CanCreate;
    AssumptionsAreConsistent();
    ClearProceeds();
    var w: World;
    steps, w := FailsAfterCreating(WORKSPACE, NOTHING, CLEAR, STAMP);
  }

  // ---------- A rewrite that fails ----------

  /** The identifier "b", of a second flag whose schema has since moved to version 2. */
  const B: Text := [0x62]

  const PAIR: Config := Config(map[A := FLAG, B := FlagOf(B, 2)], PLAIN)

  const OLD_B: Manifest := Manifest(B, 1, A, 1, 1, 1, Digits(0x43), Application, 3, B, None)

  /** The second flag alone, still in version 1. */
  const OLD: Store := Store(map[B := Held(OLD_B, [Stored(B, false)], Bool(false), map[])], {})

  const OPEN: Intent := Create({A, B}, map[A := Seed(Bool(false), Empty, None)], false, {})

  lemma PairIsValid()
    ensures ValidConfig(PAIR)
  {
    hide LawfulDefinition, LawfulCodec, InjectiveDigest;
    assert A[0] != B[0];
    FlagIsLawful(A, 1);
    FlagIsLawful(B, 2);
    PlainIsLawful();
  }

  /** A flag written in version 1 reads back in version 2. */
  lemma OldFlagReadsBack()
    ensures Decoded(FlagOf(B, 2), PLAIN, OLD_B, [Stored(B, false)]) == Some(Bool(false))
  {
    var records := [Stored(B, false)];
    assert records[1..] == [];
    assert SortByOrdinal(records) == records;
    FlagIsCounted(B, false);
    FlagDigest(B, 1, false);
    assert Serialize(Bool(false))[0] == 0x30;
    assert Decode(DecodeInputOf(FlagOf(B, 2), records[0])) == Some(LocalRecord(A, Bool(false)));
    assert DecodedRecords(FlagOf(B, 2), PLAIN, records) == [LocalRecord(A, Bool(false))];
  }

  lemma OldReadsBack()
    ensures StoreOK(PAIR, OLD)
  {
    hide Decoded;
    OldFlagReadsBack();
  }

  const FOUND: map<Text, Seen> := map[A := Absent, B := Present(OLD_B, Bool(false))]

  lemma OpenFinds()
    ensures FoundFor(OLD, OPEN) == FOUND && OPEN.collections - OLD.held.Keys == {A}
  {
    assert A[0] != B[0];
  }

  lemma OpenIsAllowed()
    ensures IntentOK(PAIR, OPEN)
  {
  }

  function FirstDraft(): Draft
  {
    DraftCreate(PAIR, A, Absent, Some(Seed(Bool(false), Empty, None)), false, STAMP)
  }

  lemma OpenPlans()
    ensures IntentOK(PAIR, OPEN) && FirstDraft().Drafted?
    ensures PlanOf(PAIR, OPEN, FOUND, STAMP)
        == Proceed(Change(ExpectedOf(FOUND), map[A := FirstDraft().write]), Json.Null)
  {
    hide DraftCreate, IntentOK;
    OpenIsAllowed();
    AIsDrafted();
    var drafts := DraftsOf(PAIR, OPEN, FOUND, SeedInputs(OPEN), STAMP);
    assert drafts == map[A := FirstDraft(), B := Untouched];
    var writes := map c | c in drafts && drafts[c].Drafted? :: drafts[c].write;
    assert A in writes && writes == map[A := FirstDraft().write];
  }

  lemma OpenProceeds()
    ensures CanCreate(PAIR, OLD, OPEN, STAMP)
    ensures DocumentsOf(ApplyChange(OLD, CreatingFlight(PAIR, OLD, OPEN, STAMP).change))
        == map[A := Bool(false), B := Bool(false)]
  {
    hide PlanOf, IntentOK, FirstDraft, DraftCreate, FoundFor;
    OpenFinds();
    OpenPlans();
    FirstIsClear();
    assert A in OPEN.collections - OLD.held.Keys;
  }

  lemma FirstIsClear()
    ensures FirstDraft().Drafted? && FirstDraft().write.content.document == Bool(false) && A != B
  {
    AIsDrafted();
  }

  lemma AIsDrafted()
    ensures DraftCreate(PAIR, A, Absent, Some(Seed(Bool(false), Empty, None)), false, STAMP).Drafted?
    ensures DraftCreate(PAIR, A, Absent, Some(Seed(Bool(false), Empty, None)), false,
                        STAMP).write.content.document == Bool(false)
    ensures DraftCreate(PAIR, B, Present(OLD_B, Bool(false)), None, false, STAMP) == Untouched
    ensures A != B
  {
    assert A[0] != B[0];
    FlagIsPrepared(A, 1, false, NoncesFor(STAMP, A));
    DigitsAreDigest(0x43);
  }

  lemma BIsDrafted()
    ensures DraftUpgrade(PAIR, B, Present(OLD_B, Bool(false)), STAMP).Drafted?
  {
    assert A[0] != B[0];
    FlagIsPrepared(B, 2, false, NoncesFor(STAMP, B));
    DigitsAreDigest(0x43);
  }

  lemma RewriteProceeds()
    ensures CanRewrite(PAIR, OLD, OPEN, B, STAMP)
  {
    hide DraftUpgrade;
    BIsDrafted();
    var seen := map[B := Present(OLD_B, Bool(false))];
    var drafts := DraftsOf(PAIR, Upgrade({B}, 0), seen, Documents(seen), STAMP);
    assert drafts == map[B := DraftUpgrade(PAIR, B, seen[B], STAMP)];
    var writes := map c | c in drafts && drafts[c].Drafted? :: drafts[c].write;
    assert B in writes;
  }

  /**
   Opening the pair creates the first flag, reads both, and fails to rewrite the
   second: the call rejects with a write failure, and the first flag is there.
   */
  lemma CreationStandsWhenRewriteFails() returns (steps: seq<Step>)
    ensures RunFrom(PAIR, OLD, steps)
    ensures var w := Reached(PAIR, OLD, steps);
      && Ended(w, 0) && 1 in w.operations && CallOf(w, 1) == 0
      && w.operations[1].phase == Finished(Failed(WriteFailed))
      && !WroteNothing(w, 0) && DocumentsOf(w.store) == map[A := Bool(false), B := Bool(false)]
  {
    hide PlanOf, ValidConfig, IntentOK, StoreOK, CanCreate, CanRewrite, Ended, WroteNothing;
    PairIsValid();
    OldReadsBack();
    OpenProceeds();
    RewriteProceeds();
    var w: World;
    steps, w := FailsInRewriteAfterCreating(PAIR, OLD, OPEN, STAMP, B, STAMP);
  }
}
