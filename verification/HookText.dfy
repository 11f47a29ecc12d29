/** What makes a hook command recognisably ours. */
module HookText {
  import opened Search
  import opened Wrappers

  predicate StartsWith(text: string, prefix: string) {
    |prefix| <= |text| && text[..|prefix|] == prefix
  }

  predicate Contains(text: string, part: string)
    requires part != ""
  {
    Find(text, part).Some?
  }

  const OWNED_MARKERS := [
    "notify;Voktty;", "voktty;notify", "__voktty_notify", "notify;Terax;", "terax;notify", "__terax_notify"]

  predicate IsOwnedHookCommand(command: string) {
    exists i :: 0 <= i < |OWNED_MARKERS| && Contains(command, OWNED_MARKERS[i])
  }

  /** A notification through the terminal, as it is written for shells. */
  function OscCommand(agent: string, event: string, tail: string): string {
    "[ -n \"$VOKTTY_TERMINAL\" ] && printf '\\033]777;" + "notify;Voktty;" + agent + ";" + event + "\\007' > /dev/tty; " + tail
  }

  const OSC_TAIL := "printf '{}'"
  const KIMI_TAIL := "cat >/dev/null || true"

  function TerminalSequenceCommand(event: string): string {
    "[ -n \"$VOKTTY_TERMINAL\" ] && printf '{\"terminalSequence\":\"\\\\u001b]777;" + "notify;Voktty;" + event
    + "\\\\u0007\"}' || true"
  }

  lemma MiddleIsContained(front: string, part: string, back: string)
    requires part != ""
    ensures Contains(front + part + back, part)
  {
    assert OccursAt(front + part + back, part, |front|);
  }

  lemma OscIsOwned(agent: string, event: string, tail: string)
    ensures IsOwnedHookCommand(OscCommand(agent, event, tail))
  {
    var front := "[ -n \"$VOKTTY_TERMINAL\" ] && printf '\\033]777;";
    var back := agent + ";" + event + "\\007' > /dev/tty; " + tail;
    MiddleIsContained(front, OWNED_MARKERS[0], back);
    assert OscCommand(agent, event, tail) == front + OWNED_MARKERS[0] + back;
  }

  lemma TerminalSequenceIsOwned(event: string)
    ensures IsOwnedHookCommand(TerminalSequenceCommand(event))
  {
    var front := "[ -n \"$VOKTTY_TERMINAL\" ] && printf '{\"terminalSequence\":\"\\\\u001b]777;";
    var back := event + "\\\\u0007\"}' || true";
    MiddleIsContained(front, OWNED_MARKERS[0], back);
    assert TerminalSequenceCommand(event) == front + OWNED_MARKERS[0] + back;
  }
}
