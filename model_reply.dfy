/**
 * Cleaning a language-model reply before it is decoded as JSON. Topic
 * extraction and topic consolidation apply the same rule: trim, drop an
 * opening "```json" or "```" fence together with a closing "```", trim again.
 */
module ModelReply {
  import opened Text

  const Fence := "```"
  const JsonFence := "```json"

  /** Drops a closing fence, if the text ends with one. */
  function DropClosingFence(s: string): string {
    if EndsWith(s, Fence) then s[..|s| - |Fence|] else s
  }

  /** The text handed to the JSON decoder for a raw model reply. */
  function StripCodeFence(reply: string): (r: string)
    ensures Trimmed(r)
  {
    var content := Strip(reply);
    var unfenced :=
      if StartsWith(content, JsonFence) then DropClosingFence(content[|JsonFence|..])
      else if StartsWith(content, Fence) then DropClosingFence(content[|Fence|..])
      else content;
    Strip(unfenced)
  }

  /**
   * A payload wrapped in a "```json" fence, with any whitespace around the
   * fence markers and around the whole reply, comes back unchanged.
   */
  lemma JsonFenceRoundTrip(lead: string, gap: string, payload: string, gap': string, trail: string)
    requires AllSpace(lead) && AllSpace(gap) && AllSpace(gap') && AllSpace(trail)
    requires Trimmed(payload)
    ensures StripCodeFence(lead + JsonFence + gap + payload + gap' + Fence + trail) == payload
  {
    var body := gap + payload + gap';
    var core := JsonFence + body + Fence;
    assert lead + JsonFence + gap + payload + gap' + Fence + trail == lead + core + trail;
    StripPadded(lead, core, trail);
    assert core[..|JsonFence|] == JsonFence;
    assert core[|JsonFence|..] == body + Fence;
    assert (body + Fence)[|body|..] == Fence;
    assert (body + Fence)[..|body|] == body;
    assert body + [] == body;
    StripPadded(gap, payload, gap');
  }

  /**
   * A JSON object or array wrapped in a bare "```" fence comes back unchanged.
   * (A payload spelled "json..." right after the fence would be read as the
   * "```json" form instead; an object or array cannot start that way.)
   */
  lemma PlainFenceRoundTrip(lead: string, gap: string, payload: string, gap': string, trail: string)
    requires AllSpace(lead) && AllSpace(gap) && AllSpace(gap') && AllSpace(trail)
    requires Trimmed(payload) && (payload == [] || payload[0] == '{' || payload[0] == '[')
    ensures StripCodeFence(lead + Fence + gap + payload + gap' + Fence + trail) == payload
  {
    var body := gap + payload + gap';
    var core := Fence + body + Fence;
    assert lead + Fence + gap + payload + gap' + Fence + trail == lead + core + trail;
    StripPadded(lead, core, trail);
    PlainFenceNotJson(gap, payload, gap');
    assert DropClosingFence(core[|Fence|..]) == body by {
      ClosingFence(body);
    }
    StripPadded(gap, payload, gap');
  }

  /** A bare fence followed by whitespace, `{`, `[` or the closing fence is not a "```json" fence. */
  lemma PlainFenceNotJson(gap: string, payload: string, gap': string)
    requires AllSpace(gap) && AllSpace(gap')
    requires payload == [] || payload[0] == '{' || payload[0] == '['
    ensures !StartsWith(Fence + (gap + payload + gap') + Fence, JsonFence)
    ensures StartsWith(Fence + (gap + payload + gap') + Fence, Fence)
  {
    var core := Fence + (gap + payload + gap') + Fence;
    assert core[|Fence|] != 'j' by {
      if gap != [] {
        assert core[|Fence|] == gap[0];
      } else if payload != [] {
        assert core[|Fence|] == payload[0];
      } else if gap' != [] {
        assert core[|Fence|] == gap'[0];
      } else {
        assert core[|Fence|] == '`';
      }
    }
    assert core[..|Fence|] == Fence;
  }

  /** Dropping the opening fence and then the closing one gives back what was between them. */
  lemma ClosingFence(body: string)
    ensures DropClosingFence((Fence + body + Fence)[|Fence|..]) == body
  {
    assert (Fence + body + Fence)[|Fence|..] == body + Fence;
    assert (body + Fence)[|body|..] == Fence;
    assert (body + Fence)[..|body|] == body;
  }

  /** A reply without an opening fence is only trimmed. */
  lemma UnfencedReply(lead: string, payload: string, trail: string)
    requires AllSpace(lead) && AllSpace(trail)
    requires Trimmed(payload) && !StartsWith(payload, Fence)
    ensures StripCodeFence(lead + payload + trail) == payload
  {
    StripPadded(lead, payload, trail);
    assert payload == [] + payload + [];
    StripPadded([], payload, []);
  }
}
