/** Flattening of the transcription result into the plain text that is sent
    to the summariser (app.py, "Step 2: Format Transcript for Summarization"). */
module Transcript {
  import opened Wrappers

  /** One diarized segment of the transcription output. Either key may be
      missing from the utterance object. */
  datatype Utterance = Utterance(speaker: Option<string>, text: Option<string>)

  /** The transcription result object. Only its "utterances" and "text" keys
      are consulted; `None` means the key is absent. */
  datatype Payload = Payload(utterances: Option<seq<Utterance>>, text: Option<string>)

  const UnknownSpeaker: string := "Unknown Speaker"
  const NoTextFound: string := "No text found."

  /** The speaker as the flattened line shows it. */
  function SpeakerOf(u: Utterance): string {
    u.speaker.GetOr(UnknownSpeaker)
  }

  /** The text as the flattened line shows it. */
  function TextOf(u: Utterance): string {
    u.text.GetOr("")
  }

  /** The line written for one utterance: `"{speaker}: {text}\n"`. */
  function Line(u: Utterance): string {
    SpeakerOf(u) + ": " + TextOf(u) + "\n"
  }

  /** Reference definition of the diarized transcript: the lines of the
      utterances, in order, concatenated. */
  function Join(us: seq<Utterance>): string {
    if us == [] then "" else Line(us[0]) + Join(us[1..])
  }

  /** The plain text sent to the summariser, as a pure function. */
  function Flatten(p: Payload): (r: string)
    ensures p.utterances.Some? ==> r == Join(p.utterances.value)
    ensures p.utterances == Some([]) ==> r == ""
    ensures p.utterances.None? && p.text.Some? ==> r == p.text.value
    ensures p.utterances.None? && p.text.None? ==> r == NoTextFound
  {
    match p.utterances
    case Some(us) => Join(us)
    case None => p.text.GetOr(NoTextFound)
  }

  /** Joining is a homomorphism from utterance sequences to strings. */
  lemma {:induction false} JoinAppend(a: seq<Utterance>, b: seq<Utterance>)
    ensures Join(a + b) == Join(a) + Join(b)
  {
    if a == [] {
      assert a + b == b;
    } else {
      assert (a + b)[1..] == a[1..] + b;
      JoinAppend(a[1..], b);
    }
  }

  /** The flattening loop as the endpoint writes it: start from the empty
      string and append one line per utterance; without an "utterances" key
      take the "text" value or the fallback. */
  method FlattenTranscript(p: Payload) returns (plain: string)
    ensures plain == Flatten(p)
  {
    plain := "";
    if p.utterances.Some? {
      var us := p.utterances.value;
      var i := 0;
      while i < |us|
        invariant 0 <= i <= |us|
        invariant plain == Join(us[..i])
      {
        var speaker := us[i].speaker.GetOr(UnknownSpeaker);
        var text := us[i].text.GetOr("");
        plain := plain + speaker + ": " + text + "\n";
        assert us[..i + 1] == us[..i] + [us[i]];
        JoinAppend(us[..i], [us[i]]);
        i := i + 1;
      }
      assert us[..|us|] == us;
    } else {
      plain := p.text.GetOr(NoTextFound);
    }
  }

  /** Where the line of utterance `i` starts in `Join(us)`. */
  function Offset(us: seq<Utterance>, i: nat): nat
    requires i <= |us|
  {
    |Join(us[..i])|
  }

  /** Every utterance contributes exactly its own line, at its own position
      and in input order: nothing is dropped, reordered or merged. */
  lemma JoinSegments(us: seq<Utterance>, i: nat)
    requires i < |us|
    ensures Offset(us, i) + |Line(us[i])| == Offset(us, i + 1) <= |Join(us)|
    ensures Join(us)[Offset(us, i)..Offset(us, i + 1)] == Line(us[i])
  {
    assert us == us[..i] + ([us[i]] + us[i + 1..]);
    JoinAppend(us[..i], [us[i]] + us[i + 1..]);
    JoinAppend([us[i]], us[i + 1..]);
    assert us[..i + 1] == us[..i] + [us[i]];
    JoinAppend(us[..i], [us[i]]);
    assert Join([us[i]]) == Line(us[i]) by {
      assert [us[i]][1..] == [];
    }
  }

  // ---------------------------------------------------------------------
  // Reading the flattened text back

  /** Index of the first occurrence of `c` in `s`, or `|s|` when absent. */
  function IndexOf(s: string, c: char): (i: nat)
    ensures i <= |s|
    ensures i < |s| ==> s[i] == c
    ensures forall j :: 0 <= j < i ==> s[j] != c
  {
    if s == [] then 0
    else if s[0] == c then 0
    else 1 + IndexOf(s[1..], c)
  }

  /** Splits one line at its first `": "` into speaker and text. */
  function ParseLine(line: string): (string, string) {
    var k := IndexOf(line, ':');
    if k + 2 <= |line| && line[k + 1] == ' ' then (line[..k], line[k + 2..]) else ("", line)
  }

  /** Splits flattened text into newline-terminated lines and each line into
      its speaker and text. */
  function ParseTranscript(s: string): seq<(string, string)>
    decreases |s|
  {
    if s == [] then []
    else
      var i := IndexOf(s, '\n');
      if i == |s| then [ParseLine(s)]
      else [ParseLine(s[..i])] + ParseTranscript(s[i + 1..])
  }

  /** The speaker and text each utterance is shown with, in order. */
  function Labelled(us: seq<Utterance>): seq<(string, string)> {
    seq(|us|, i requires 0 <= i < |us| => (SpeakerOf(us[i]), TextOf(us[i])))
  }

  /** An utterance whose shown speaker has no colon or newline and whose
      shown text has no newline, so its line can be read back unambiguously. */
  predicate Unambiguous(u: Utterance) {
    ':' !in SpeakerOf(u) && '\n' !in SpeakerOf(u) && '\n' !in TextOf(u)
  }

  /** In `p + [c] + rest` the first `c` is at `|p|` when `p` contains none. */
  lemma IndexOfFirst(p: string, c: char, rest: string)
    requires c !in p
    ensures IndexOf(p + [c] + rest, c) == |p|
  {
    var s := p + [c] + rest;
    assert s[|p|] == c;
    assert forall j :: 0 <= j < |p| ==> s[j] == p[j];
  }

  /** One unambiguous line reads back to its speaker and text, followed by
      whatever the rest reads back to. */
  lemma ParseOneLine(u: Utterance, rest: string)
    requires Unambiguous(u)
    ensures ParseTranscript(Line(u) + rest) == [(SpeakerOf(u), TextOf(u))] + ParseTranscript(rest)
  {
    var sp, tx := SpeakerOf(u), TextOf(u);
    var body := sp + ": " + tx;
    var s := Line(u) + rest;
    assert s == body + ['\n'] + rest;
    assert '\n' !in body by {
      forall j | 0 <= j < |body|
        ensures body[j] != '\n'
      {
        if j < |sp| {
          assert body[j] == sp[j];
        } else if j >= |sp| + 2 {
          assert body[j] == tx[j - |sp| - 2];
        }
      }
    }
    IndexOfFirst(body, '\n', rest);
    assert s[..|body|] == body;
    assert s[|body| + 1..] == rest;
    assert body == sp + [':'] + (" " + tx);
    IndexOfFirst(sp, ':', " " + tx);
    assert body[..|sp|] == sp;
    assert body[|sp| + 2..] == tx;
  }

  /** Round trip: when no speaker contains a colon or newline and no text a
      newline, reading the flattened text back yields each utterance's
      speaker (or "Unknown Speaker") and text (or ""), one per utterance, in
      order. */
  lemma {:induction false} ParseJoin(us: seq<Utterance>)
    requires forall i :: 0 <= i < |us| ==> Unambiguous(us[i])
    ensures ParseTranscript(Join(us)) == Labelled(us)
  {
    if us == [] {
    } else {
      ParseOneLine(us[0], Join(us[1..]));
      ParseJoin(us[1..]);
      assert Labelled(us) == [(SpeakerOf(us[0]), TextOf(us[0]))] + Labelled(us[1..]);
    }
  }

  /** Present speaker and text values appear verbatim in their line; absent
      ones are shown as "Unknown Speaker" and "". */
  lemma LineShowsFields(u: Utterance)
    ensures u.speaker.Some? ==> Line(u)[..|u.speaker.value|] == u.speaker.value
    ensures u.speaker.None? ==> Line(u)[..|UnknownSpeaker| + 2] == UnknownSpeaker + ": "
    ensures u.text.Some? ==> Line(u)[|SpeakerOf(u)| + 2..|Line(u)| - 1] == u.text.value
    ensures u.text.None? ==> Line(u) == SpeakerOf(u) + ": \n"
  {
  }
}
