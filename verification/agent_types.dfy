/** The kinds and origins of agents (enums.rs, agent_discovery.rs). */
module AgentTypes {
  datatype AgentType = Acp | OpenclawGateway | Nanobot | Remote | Aionrs | Gemini | Codex

  datatype AgentSource = Internal | Builtin | Extension | Custom
}
