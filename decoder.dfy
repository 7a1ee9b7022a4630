/** Extraction of the JSON object embedded in a completion's free text.
    memory.js removes the ```json and ``` fence markers and cuts from the first
    `{` to the last `}`; main.js repeats the same cut on the reply it receives
    but falls back to the original, unstripped text when a brace is missing. */
module Decoder {
  import opened Text

  const JsonFence := "```json"
  const Fence := "```"

  /** `raw.replace(/```json/g, "").replace(/```/g, "")` */
  function StripFences(raw: string): string {
    RemoveAll(RemoveAll(raw, JsonFence), Fence)
  }

  /** The brace cut of memory.js:70-71. With both braces present it is
      `clean.substring(first, last + 1)`, so when the last `}` precedes the
      first `{` JavaScript swaps the bounds and the text between them is kept. */
  function ExtractObject(clean: string): (r: string)
    ensures '{' !in clean || '}' !in clean ==> r == clean
    ensures '{' in clean && '}' in clean && IndexOf(clean, '{') <= LastIndexOf(clean, '}') ==>
              r == clean[IndexOf(clean, '{')..LastIndexOf(clean, '}') + 1]
              && r[0] == '{' && r[|r| - 1] == '}'
    ensures '{' in clean && '}' in clean && LastIndexOf(clean, '}') < IndexOf(clean, '{') ==>
              r == clean[LastIndexOf(clean, '}') + 1..IndexOf(clean, '{')]
              && '{' !in r && '}' !in r
  {
    var first, last := IndexOf(clean, '{'), LastIndexOf(clean, '}');
    if first != -1 && last != -1 then
      if last < first then
        assert Substring(clean, first, last + 1) == clean[last + 1..first];
        assert clean[last + 1..first] == clean[..first][last + 1..];
        assert clean[last + 1..first] == clean[last + 1..][..first - last - 1];
        Substring(clean, first, last + 1)
      else
        Substring(clean, first, last + 1)
    else clean
  }

  /** memory.js's decoder: the text handed to JSON.parse on each attempt. */
  function Decode(raw: string): string {
    ExtractObject(StripFences(raw))
  }

  /** main.js's decoder (main.js:172-176): the brace cut of the stripped text
      when both braces are present, and otherwise the raw text, fences and all. */
  function DecodeReply(raw: string): (r: string)
    ensures '{' in StripFences(raw) && '}' in StripFences(raw) ==> r == Decode(raw)
    ensures '{' !in StripFences(raw) || '}' !in StripFences(raw) ==> r == raw
  {
    var cleanRaw := StripFences(raw);
    var firstBrace, lastBrace := IndexOf(cleanRaw, '{'), LastIndexOf(cleanRaw, '}');
    if firstBrace != -1 && lastBrace != -1 then Substring(cleanRaw, firstBrace, lastBrace + 1)
    else raw
  }

  /** Cutting an already cut text changes nothing: the cut of a text that starts
      with `{` and ends with `}` is the whole text, and a text holding no brace
      is returned as it is. */
  lemma ExtractObjectIdempotent(clean: string)
    ensures ExtractObject(ExtractObject(clean)) == ExtractObject(clean)
  {
    var r := ExtractObject(clean);
    if '{' in clean && '}' in clean && IndexOf(clean, '{') <= LastIndexOf(clean, '}') {
      assert r[0] == '{' && r[|r| - 1] == '}';
      var f, l := IndexOf(r, '{'), LastIndexOf(r, '}');
      assert f == 0;
      assert l == |r| - 1;
      assert r[0..|r|] == r;
    }
  }

  // ---------------------------------------------------------------------
  // No fence survives the stripping
  // ---------------------------------------------------------------------

  lemma NonTickHead(s: string)
    requires s != [] && s[0] != '`'
    ensures RemoveAll(s, Fence) != [] && RemoveAll(s, Fence)[0] == s[0]
  {
    if |s| >= |Fence| {
      assert s[..|Fence|][0] != Fence[0];
    }
  }

  /** When `s` starts with a backtick that does not open a full fence, what the
      removal makes of the rest does not start with two backticks. */
  lemma NoDoubleTickAfter(s: string)
    requires |s| >= 3 && s[0] == '`' && s[..3] != Fence
    ensures var t := RemoveAll(s[1..], Fence); !(|t| >= 2 && t[0] == '`' && t[1] == '`')
  {
    var s1 := s[1..];
    if s[1] != '`' {
      NonTickHead(s1);
    } else {
      assert s[2] != '`';
      if |s1| >= 3 {
        assert s1[..3] != Fence by { assert s1[..3][1] == s[2]; }
        assert s1[1..] == s[2..];
        NonTickHead(s[2..]);
      }
    }
  }

  /** After `replace(/```/g, "")` no fence is left: every run of n backticks
      becomes a run of n mod 3. */
  lemma {:induction false} FenceFree(s: string)
    ensures NoOccurrence(RemoveAll(s, Fence), Fence)
    decreases |s|
  {
    var r := RemoveAll(s, Fence);
    if |s| < |Fence| {
    } else if s[..|Fence|] == Fence {
      FenceFree(s[|Fence|..]);
    } else {
      var t := RemoveAll(s[1..], Fence);
      FenceFree(s[1..]);
      assert r == [s[0]] + t;
      forall i | 0 <= i <= |r| - |Fence| ensures !MatchAt(r, Fence, i) {
        if i == 0 {
          if s[0] == '`' {
            NoDoubleTickAfter(s);
          } else {
            assert r[..3][0] == s[0];
          }
        } else {
          assert !MatchAt(t, Fence, i - 1);
          assert r[i..i + |Fence|] == t[i - 1..i - 1 + |Fence|];
        }
      }
    }
  }

  lemma NoJsonFence(t: string)
    requires NoOccurrence(t, Fence)
    ensures NoOccurrence(t, JsonFence)
  {
    forall i | 0 <= i <= |t| - |JsonFence| ensures !MatchAt(t, JsonFence, i) {
      assert !MatchAt(t, Fence, i);
      if MatchAt(t, JsonFence, i) {
        forall k | 0 <= k < |Fence| ensures t[i + k] == Fence[k] {
          assert t[i..i + |JsonFence|][k] == JsonFence[k];
        }
        assert false;
      }
    }
  }

  /** Text free of fences is left unchanged by the stripping. */
  lemma StripFenceFree(t: string)
    requires NoOccurrence(t, Fence)
    ensures StripFences(t) == t
  {
    NoJsonFence(t);
    RemoveAllAbsent(t, JsonFence);
    RemoveAllAbsent(t, Fence);
  }

  /** The stripped text holds no fence, so stripping twice is stripping once. */
  lemma StripFencesIdempotent(raw: string)
    ensures NoOccurrence(StripFences(raw), Fence)
    ensures StripFences(StripFences(raw)) == StripFences(raw)
  {
    FenceFree(RemoveAll(raw, JsonFence));
    StripFenceFree(StripFences(raw));
  }

  /** main.js decodes once more the text memory.js already decoded
      (memory.js:74 returns the cleaned text, main.js:172-176 cuts it again).
      That second pass is the identity, so main.js parses exactly the text
      memory.js parsed and validated. */
  lemma ReDecodeIsIdentity(raw: string)
    ensures DecodeReply(Decode(raw)) == Decode(raw)
  {
    var c := StripFences(raw);
    var d := Decode(raw);
    StripFencesIdempotent(raw);
    if '{' in c && '}' in c {
      var f, l := IndexOf(c, '{'), LastIndexOf(c, '}');
      if f <= l {
        NoOccurrenceSlice(c, Fence, f, l + 1);
      } else {
        NoOccurrenceSlice(c, Fence, l + 1, f);
      }
    }
    StripFenceFree(d);
    ExtractObjectIdempotent(c);
  }

  /** The two decoders agree whenever the stripped text has both braces. */
  lemma DecodersAgreeWithBraces(raw: string)
    requires '{' in StripFences(raw) && '}' in StripFences(raw)
    ensures DecodeReply(raw) == Decode(raw)
  {
  }

  /** Where they differ: on a reply made of a bare fence memory.js hands the
      empty stripped text to JSON.parse, main.js the fence itself. */
  lemma DecodersDifferWithoutBraces()
    ensures Decode("```") == ""
    ensures DecodeReply("```") == "```"
  {
    var raw := "```";
    assert RemoveAll(raw, JsonFence) == raw;
    assert raw[..|Fence|] == Fence;
    assert RemoveAll(raw, Fence) == RemoveAll("", Fence);
  }
}
