/** `cleanJsonString`: removes the Markdown code fence a language model may wrap
    around its JSON reply. */
module CleanJson {
  import opened Strings

  const Fence := "```"

  /** `s.replace(/^```(json)?/, '')`: one opening fence, with its `json` tag when present. */
  function StripOpeningFence(s: string): (r: string)
    ensures StartsWith(s, Fence + "json") ==> s == Fence + "json" + r
    ensures StartsWith(s, Fence) && !StartsWith(s, Fence + "json") ==> s == Fence + r
    ensures !StartsWith(s, Fence) ==> r == s
    ensures IsInfix(r, s)
  {
    if StartsWith(s, Fence + "json") then
      assert s == s[..7] + s[7..];
      assert s[7..] == s[7..|s|];
      s[7..]
    else if StartsWith(s, Fence) then
      assert s == s[..3] + s[3..];
      assert s[3..] == s[3..|s|];
      s[3..]
    else assert s == s[0..|s|]; s
  }

  /** `s.replace(/```$/, '')`: one closing fence at the very end. */
  function StripClosingFence(s: string): (r: string)
    ensures EndsWith(s, Fence) ==> s == r + Fence
    ensures !EndsWith(s, Fence) ==> r == s
    ensures IsInfix(r, s)
  {
    if EndsWith(s, Fence) then
      assert s == s[..|s| - 3] + s[|s| - 3..];
      assert s[..|s| - 3] == s[0..|s| - 3];
      s[..|s| - 3]
    else assert s == s[0..|s|]; s
  }

  /** The conditional override in `cleanJsonString`: a text that starts with a fence
      loses one opening and one closing fence; any other text is left alone. */
  function Unfence(clean: string): (r: string)
    ensures StartsWith(clean, Fence) ==> r == StripClosingFence(StripOpeningFence(clean))
    ensures !StartsWith(clean, Fence) ==> r == clean
    ensures IsInfix(r, clean)
  {
    if StartsWith(clean, Fence) then
      var r := StripClosingFence(StripOpeningFence(clean));
      InfixTransitive(r, StripOpeningFence(clean), clean);
      r
    else
      assert clean == clean[0..|clean|];
      clean
  }

  /** Trims, unfences and trims again. Nothing else is repaired: the result is a
      piece of the trimmed input. */
  function CleanJsonString(text: string): (r: string)
    ensures IsTrimmed(r)
    ensures !StartsWith(Trim(text), Fence) ==> r == Trim(text)
    ensures IsInfix(r, Trim(text))
  {
    var clean := Trim(text);
    var r := Trim(Unfence(clean));
    assert IsInfix(r, clean) by {
      TrimIsInfix(Unfence(clean));
      InfixTransitive(r, Unfence(clean), clean);
    }
    r
  }

  /** After a fence, the text continues with something other than `json` when it
      starts with whitespace, or with a payload that does not start with `json`
      followed by whitespace and the closing fence. */
  lemma NoTagAfterFence(w1: string, payload: string, w2: string)
    requires AllSpace(w1) && AllSpace(w2)
    requires w1 == [] ==> !StartsWith(payload, "json")
    ensures !StartsWith(w1 + payload + w2 + Fence, "json")
  {
    var x := w1 + payload + w2 + Fence;
    if w1 != [] {
      assert x[0] == w1[0];
      assert !IsSpace('j');
    } else if |payload| >= 4 {
      assert x[..4] == payload[..4];
    } else {
      var k := |payload|;
      assert x[k] == if w2 != [] then w2[0] else '`';
      assert x[k] != "json"[k];
    }
  }

  lemma OpeningFenceRemoved(tag: string, w1: string, payload: string, w2: string)
    requires tag == "json" || tag == ""
    requires AllSpace(w1) && AllSpace(w2)
    requires tag == "" && w1 == [] ==> !StartsWith(payload, "json")
    ensures StripOpeningFence(Fence + tag + w1 + payload + w2 + Fence) == w1 + payload + w2 + Fence
  {
    var rest := w1 + payload + w2 + Fence;
    var text := Fence + tag + w1 + payload + w2 + Fence;
    assert text == Fence + tag + rest;
    if tag == "json" {
      assert text[..7] == Fence + "json";
      assert text[7..] == rest;
    } else {
      assert text == Fence + rest;
      assert text[3..] == rest;
      NoTagAfterFence(w1, payload, w2);
      if |text| >= 7 {
        assert text[3..7] == rest[..4];
      }
    }
  }

  /** A trimmed payload inside a fence (tagged `json` or not) with whitespace around
      it comes out exactly; without a tag, the payload must not itself begin with
      `json` right after the fence, since the pattern would take that as the tag. */
  lemma FencedPayload(tag: string, w1: string, payload: string, w2: string)
    requires tag == "json" || tag == ""
    requires AllSpace(w1) && AllSpace(w2) && IsTrimmed(payload)
    requires tag == "" && w1 == [] ==> !StartsWith(payload, "json")
    ensures CleanJsonString(Fence + tag + w1 + payload + w2 + Fence) == payload
  {
    var inner := w1 + payload + w2;
    var text := Fence + tag + w1 + payload + w2 + Fence;
    assert StartsWith(text, Fence) by {
      assert text[..3] == Fence;
    }
    assert IsTrimmed(text) by {
      assert text[0] == '`' && text[|text| - 1] == '`';
    }
    assert Unfence(text) == inner by {
      OpeningFenceRemoved(tag, w1, payload, w2);
      assert (inner + Fence)[..|inner|] == inner;
    }
    TrimPadded(w1, payload, w2);
  }

  /** The fenced example from the service's documentation. */
  lemma FencedExample()
    ensures CleanJsonString("```json\n{\"a\":1}\n```") == "{\"a\":1}"
  {
    var payload := "{\"a\":1}";
    assert Fence + "json" + "\n" + payload + "\n" + Fence == "```json\n{\"a\":1}\n```";
    assert IsTrimmed(payload) by { assert payload[0] == '{' && payload[|payload| - 1] == '}'; }
    FencedPayload("json", "\n", payload, "\n");
  }

  /** Unfenced JSON passes through unchanged. */
  lemma UnfencedExample()
    ensures CleanJsonString("{\"a\":1}") == "{\"a\":1}"
  {
    var text := "{\"a\":1}";
    assert IsTrimmed(text) by { assert text[0] == '{' && text[|text| - 1] == '}'; }
    assert !StartsWith(text, Fence) by { assert text[0] != Fence[0]; }
  }
}
