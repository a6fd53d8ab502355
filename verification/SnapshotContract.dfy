/**
 The frozen AI policy snapshot and the contract it must meet. A snapshot is a record with one
 field per key the code looks at, None when the key is absent, and `rest` for all other keys.
 `digest` is the hash of a snapshot without its digest; everything holds for any such function.
 */
module SnapshotContract {
  import opened Values
  import opened EvidencePointers
  import Text

  datatype Runtime = Runtime(
    runtimeMode: Option<Value>,
    provider: Option<Value>,
    model: Option<Value>,
    timeoutSeconds: Option<Value>,
    maxRetries: Option<Value>,
    rest: map<string, Value>)

  /** The text fields every agent must carry. */
  datatype PolicyText =
    | PolicyFileName | PolicySha256 | SchemaFileName | SchemaSha256
    | InstructionsSha256 | RubricSha256 | ResolvedInstructionsMd | ResolvedRubricMd

  datatype Agent = Agent(
    key: Option<Value>,
    promptVersion: Option<Value>,
    rubricVersion: Option<Value>,
    runtime: Field<Runtime>,
    texts: map<PolicyText, Value>,
    rubricSnapshotId: Option<Value>,
    rubricSnapshotScope: Option<Value>,
    rubricSnapshotKind: Option<Value>,
    rubricSnapshotKey: Option<Value>,
    sourcePath: Option<Value>,
    rest: map<string, Value>)

  datatype AgentField = AnAgent(agent: Agent) | NotAnAgent(v: Value)

  datatype Settings = Settings(noticeVersion: Option<Value>, noticeText: Option<Value>,
                               evalEnabledByDay: Field<map<string, Value>>, rest: map<string, Value>)

  /** What the snapshot says of one rubric row. */
  datatype Meta = Meta(
    snapshotId: int,
    scenarioVersionId: int,
    scope: string,
    kind: string,
    key: string,
    version: string,
    contentHash: string,
    sourcePath: Option<string>)

  datatype RubricList = NoList | OtherJson(v: Value) | Metas(metas: seq<Meta>)

  datatype Snapshot = Snapshot(
    promptPackVersion: Option<Value>,
    candidateSettings: Field<Settings>,
    agents: Field<map<string, AgentField>>,
    rubricSnapshots: RubricList,
    snapshotDigest: Option<Value>,
    rest: map<string, Value>)

  type Digest = Snapshot -> string

  function WithoutDigest(snapshot: Snapshot): Snapshot {
    snapshot.(snapshotDigest := None)
  }

  const AGENT_KEYS: seq<string> := [
    "prestart", "designDocReviewer", "codeImplementationReviewer", "demoPresentationReviewer",
        "reflectionEssayReviewer", "winoeReport"
  ]

  predicate TextField(field: Option<Value>) {
    IsText(Get(field))
  }

  predicate RuntimeOk(runtime: Field<Runtime>) {
    && runtime.Given?
    && TextField(runtime.value.runtimeMode) && TextField(runtime.value.provider) && TextField(runtime.value.model)
    && Get(runtime.value.timeoutSeconds).Int? && Get(runtime.value.timeoutSeconds).i > 0
    && Get(runtime.value.maxRetries).Int? && Get(runtime.value.maxRetries).i >= 0
  }

  predicate HasText(agent: Agent, name: PolicyText) {
    name in agent.texts && IsText(agent.texts[name])
  }

  predicate AgentOk(field: AgentField, agentKey: string) {
    && field.AnAgent?
    && Get(field.agent.key) == Str(agentKey)
    && TextField(field.agent.promptVersion) && TextField(field.agent.rubricVersion)
    && RuntimeOk(field.agent.runtime)
    && forall name: PolicyText :: HasText(field.agent, name)
  }

  predicate SettingsOk(settings: Field<Settings>) {
    && settings.Given?
    && TextField(settings.value.noticeVersion) && TextField(settings.value.noticeText)
    && settings.value.evalEnabledByDay.Given?
  }

  function KeySet(keys: seq<string>): set<string> {
    set key | key in keys
  }

  /** Exactly the expected agents, each in order. */
  predicate AgentsOk(agents: map<string, AgentField>, keys: seq<string>) {
    agents.Keys == KeySet(keys) && AgentsAt(agents, keys)
  }

  predicate AgentsAt(agents: map<string, AgentField>, keys: seq<string>) {
    keys == [] || (AgentsAt(agents, keys[..|keys| - 1]) && AgentAt(agents, keys[|keys| - 1]))
  }

  predicate AgentAt(agents: map<string, AgentField>, key: string) {
    key in agents && AgentOk(agents[key], key)
  }

  /** The contract: every field in place, exactly the expected agents, and the digest right. */
  predicate Contract(snapshot: Snapshot, digest: Digest) {
    && TextField(snapshot.promptPackVersion)
    && SettingsOk(snapshot.candidateSettings)
    && snapshot.agents.Given? && AgentsOk(snapshot.agents.value, AGENT_KEYS)
    && snapshot.snapshotDigest == Some(Str(digest(WithoutDigest(snapshot))))
  }

  const POLICY_TEXTS := [
    PolicyFileName, PolicySha256, SchemaFileName, SchemaSha256, InstructionsSha256, RubricSha256,
        ResolvedInstructionsMd, ResolvedRubricMd
  ]

  lemma AllPolicyTexts(name: PolicyText)
    ensures name in POLICY_TEXTS
  {
    assert POLICY_TEXTS[0] == PolicyFileName && POLICY_TEXTS[1] == PolicySha256 && POLICY_TEXTS[2] == SchemaFileName
           && POLICY_TEXTS[3] == SchemaSha256 && POLICY_TEXTS[4] == InstructionsSha256
               && POLICY_TEXTS[5] == RubricSha256
           && POLICY_TEXTS[6] == ResolvedInstructionsMd && POLICY_TEXTS[7] == ResolvedRubricMd;
  }

  /** `_validate_agent_snapshot_structure` */
  method ValidateAgent(agents: map<string, AgentField>, agentKey: string) returns (ok: bool)
    ensures ok <==> AgentAt(agents, agentKey)
  {
    if agentKey !in agents {
      return false;
    }
    var field := agents[agentKey];
    if field.NotAnAgent? || Get(field.agent.key) != Str(agentKey) {
      return false;
    }
    if !TextField(field.agent.promptVersion) || !TextField(field.agent.rubricVersion)
        || !RuntimeOk(field.agent.runtime) {
      return false;
    }
    for i := 0 to |POLICY_TEXTS|
      invariant forall j | 0 <= j < i :: HasText(field.agent, POLICY_TEXTS[j])
    {
      if !HasText(field.agent, POLICY_TEXTS[i]) {
        return false;
      }
    }
    forall name: PolicyText ensures HasText(field.agent, name) {
      AllPolicyTexts(name);
    }
    return true;
  }

  lemma {:induction false} AgentsAtEach(agents: map<string, AgentField>, keys: seq<string>, i: nat)
    requires i < |keys|
    ensures AgentsAt(agents, keys) ==> AgentAt(agents, keys[i])
  {
    if i < |keys| - 1 {
      AgentsAtEach(agents, keys[..|keys| - 1], i);
    }
  }

  method ValidateAgents(agents: map<string, AgentField>, keys: seq<string>) returns (ok: bool)
    ensures ok <==> AgentsOk(agents, keys)
  {
    if agents.Keys != KeySet(keys) {
      return false;
    }
    for i := 0 to |keys|
      invariant AgentsAt(agents, keys[..i])
    {
      ok := ValidateAgent(agents, keys[i]);
      assert keys[..i + 1][..i] == keys[..i];
      if !ok {
        AgentsAtEach(agents, keys, i);
        return false;
      }
    }
    assert keys[..|keys|] == keys;
    return true;
  }

  /** `validate_ai_policy_snapshot_contract`; None when the snapshot is not an object. */
  method ValidateContract(snapshot: Option<Snapshot>, digest: Digest) returns (r: Checked<Snapshot>)
    ensures if snapshot.Some? && Contract(snapshot.value, digest) then r == Accepted(snapshot.value) else r.Refused?
  {
    if snapshot.None? {
      return Refused(Absent);
    }
    var s := snapshot.value;
    if !TextField(s.promptPackVersion) {
      return Refused(NotText);
    }
    if !SettingsOk(s.candidateSettings) {
      return Refused(Absent);
    }
    if !s.agents.Given? {
      return Refused(Absent);
    }
    var agentsOk := ValidateAgents(s.agents.value, AGENT_KEYS);
    if !agentsOk {
      return Refused(Contradicts);
    }
    if s.snapshotDigest != Some(Str(digest(WithoutDigest(s)))) {
      return Refused(DigestMismatch);
    }
    return Accepted(s);
  }

  // The contract read off.

  predicate HasTextIn(field: Option<Value>) {
    field.Some? && field.value.Str? && !Text.Blank(field.value.s)
  }

  /** An agent under its own key, with versions, a runtime with a time limit and a retry count, and all
      eight texts. */
  predicate CompleteAgent(field: AgentField, key: string) {
    && field.AnAgent? && field.agent.key == Some(Str(key))
    && HasTextIn(field.agent.promptVersion) && HasTextIn(field.agent.rubricVersion)
    && field.agent.runtime.Given?
    && (var runtime := field.agent.runtime.value;
        && HasTextIn(runtime.runtimeMode) && HasTextIn(runtime.provider) && HasTextIn(runtime.model)
        && runtime.timeoutSeconds.Some? && runtime.timeoutSeconds.value.Int? && runtime.timeoutSeconds.value.i >= 1
        && runtime.maxRetries.Some? && runtime.maxRetries.value.Int? && runtime.maxRetries.value.i >= 0)
    && forall name | name in {PolicyFileName, PolicySha256, SchemaFileName, SchemaSha256, InstructionsSha256,
                              RubricSha256, ResolvedInstructionsMd, ResolvedRubricMd} ::
         name in field.agent.texts && HasTextIn(Some(field.agent.texts[name]))
  }

  const AGENTS: set<string> := {
    "prestart", "designDocReviewer", "codeImplementationReviewer", "demoPresentationReviewer",
    "reflectionEssayReviewer", "winoeReport"
  }

  predicate CompleteAgents(agents: map<string, AgentField>, keys: set<string>) {
    agents.Keys == keys && forall key | key in keys :: CompleteAgent(agents[key], key)
  }

  lemma AgentIsComplete(field: AgentField, key: string)
    ensures AgentOk(field, key) <==> CompleteAgent(field, key)
  {
    if CompleteAgent(field, key) {
      forall name: PolicyText ensures HasText(field.agent, name) {
        AllPolicyTexts(name);
      }
    }
    if AgentOk(field, key) {
      forall name: PolicyText ensures name in field.agent.texts && HasTextIn(Some(field.agent.texts[name])) {
        assert HasText(field.agent, name);
      }
    }
  }

  lemma {:induction false} EachAgentAt(agents: map<string, AgentField>, keys: seq<string>)
    ensures AgentsAt(agents, keys) <==> forall key | key in keys :: key in agents && CompleteAgent(agents[key], key)
  {
    if keys != [] {
      var front, last := keys[..|keys| - 1], keys[|keys| - 1];
      assert keys == front + [last];
      EachAgentAt(agents, front);
      if last in agents {
        AgentIsComplete(agents[last], last);
      }
    }
  }

  lemma SixAgents()
    ensures KeySet(AGENT_KEYS) == AGENTS
  {
  }

  lemma AgentsAreComplete(agents: map<string, AgentField>, keys: seq<string>)
    ensures AgentsOk(agents, keys) <==> CompleteAgents(agents, KeySet(keys))
  {
    EachAgentAt(agents, keys);
  }

  lemma TheSixAreComplete(agents: map<string, AgentField>)
    ensures AgentsOk(agents, AGENT_KEYS) <==> CompleteAgents(agents, AGENTS)
  {
    AgentsAreComplete(agents, AGENT_KEYS);
    SixAgents();
  }

  /** A pack version, the notice, the days' switches, and the digest of everything else. */
  predicate CompleteFrame(snapshot: Snapshot, digest: Digest) {
    && HasTextIn(snapshot.promptPackVersion)
    && snapshot.candidateSettings.Given? && HasTextIn(snapshot.candidateSettings.value.noticeVersion)
    && HasTextIn(snapshot.candidateSettings.value.noticeText)
    && snapshot.candidateSettings.value.evalEnabledByDay.Given?
    && snapshot.snapshotDigest == Some(Str(digest(snapshot.(snapshotDigest := None))))
  }

  lemma FrameMeans(snapshot: Snapshot, digest: Digest)
    ensures CompleteFrame(snapshot, digest) <==>
              && TextField(snapshot.promptPackVersion) && SettingsOk(snapshot.candidateSettings)
              && snapshot.snapshotDigest == Some(Str(digest(WithoutDigest(snapshot))))
  {
  }

  /** What a snapshot needs to be accepted: all of that, and exactly the six agents, each complete. */
  lemma ContractMeans(snapshot: Snapshot, digest: Digest)
    ensures Contract(snapshot, digest) <==>
              CompleteFrame(snapshot, digest) && snapshot.agents.Given? && CompleteAgents(snapshot.agents.value, AGENTS)
  {
    FrameMeans(snapshot, digest);
    if snapshot.agents.Given? {
      TheSixAreComplete(snapshot.agents.value);
    }
  }
}
