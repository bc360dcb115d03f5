/** The protocol constants that both the request path and the event stream announce. */
module Protocol {
  import opened Json

  /** The block `initialize` answers with and the event stream opens with. */
  const InitializeResult: Json :=
    JObj(map[
      "protocolVersion" := JStr("2024-11-05"),
      "capabilities" := JObj(map["tools" := JObj(map[]), "logging" := JObj(map[]), "prompts" := JObj(map[])]),
      "serverInfo" := JObj(map["name" := JStr("k-beauty-complete"), "version" := JStr("3.0.0")])])

  /**
    The `initialize` block: protocol revision 2024-11-05, the tools, logging
    and prompts capabilities with no options, and the server's name and version.
   */
  lemma InitializeBlock()
    ensures InitializeResult.JObj? && InitializeResult.fields.Keys == {"protocolVersion", "capabilities", "serverInfo"}
    ensures InitializeResult.fields["protocolVersion"] == JStr("2024-11-05")
    ensures var capabilities := InitializeResult.fields["capabilities"];
            && capabilities.JObj? && capabilities.fields.Keys == {"tools", "logging", "prompts"}
            && forall c | c in capabilities.fields :: capabilities.fields[c] == JObj(map[])
    ensures InitializeResult.fields["serverInfo"] == JObj(map["name" := JStr("k-beauty-complete"), "version" := JStr("3.0.0")])
  {
  }
}
