/** Turning a language model's text reply into a structured record: the
    code-fence cleaning both JSON-producing agents apply, then JSON decoding
    and schema coercion, which are an oracle here. */
module Replies {
  import opened Outcomes
  import opened Text

  const JsonFence := "```json"
  const Fence := "```"

  /** `s[len(prefix):]` when `s` starts with `prefix`. */
  function DropPrefix(s: string, prefix: string): (r: string)
    ensures |r| <= |s|
  {
    if StartsWith(s, prefix) then s[|prefix|..] else s
  }

  /** `s[:-len(suffix)]` when `s` ends with `suffix`. */
  function DropSuffix(s: string, suffix: string): (r: string)
    ensures |r| <= |s|
  {
    if EndsWith(s, suffix) then s[..|s| - |suffix|] else s
  }

  /** The fence removal between the two strips: an opening "```json", then an
      opening "```", then a closing "```". */
  function DropFences(t: string): (r: string)
    ensures |r| <= |t|
  {
    DropSuffix(DropPrefix(DropPrefix(t, JsonFence), Fence), Fence)
  }

  lemma DropPrefixIsInfix(s: string, prefix: string)
    ensures IsInfix(DropPrefix(s, prefix), s)
  {
    if StartsWith(s, prefix) {
      SuffixIsInfix(s, |prefix|);
    } else {
      InfixReflexive(s);
    }
  }

  lemma DropSuffixIsInfix(s: string, suffix: string)
    ensures IsInfix(DropSuffix(s, suffix), s)
  {
    if EndsWith(s, suffix) {
      PrefixIsInfix(s, |s| - |suffix|);
    } else {
      InfixReflexive(s);
    }
  }

  /** Fence removal only cuts text off the two ends. */
  lemma DropFencesIsInfix(t: string)
    ensures IsInfix(DropFences(t), t)
  {
    var a := DropPrefix(t, JsonFence);
    var b := DropPrefix(a, Fence);
    var c := DropSuffix(b, Fence);
    DropPrefixIsInfix(t, JsonFence);
    DropPrefixIsInfix(a, Fence);
    DropSuffixIsInfix(b, Fence);
    InfixTransitive(c, b, a);
    InfixTransitive(c, a, t);
  }

  /** The reply cleaning of the page auditor and the SERP analyst: strip,
      remove the fences, strip again. */
  function CleanReply(reply: string): (r: string)
    ensures IsTrimmed(r)
    ensures |r| <= |reply|
  {
    Trim(DropFences(Trim(reply)))
  }

  /** The cleaned reply is a contiguous piece of the raw reply: cleaning only
      ever cuts text off the two ends. */
  lemma CleanReplyIsInfix(reply: string)
    ensures IsInfix(CleanReply(reply), reply)
  {
    var t := Trim(reply);
    var c := DropFences(t);
    DropFencesIsInfix(t);
    TrimIsInfix(reply);
    TrimIsInfix(c);
    InfixTransitive(c, t, reply);
    InfixTransitive(Trim(c), c, reply);
  }

  /** A payload wrapped the way models usually fence JSON. */
  function JsonFenced(payload: string): string {
    JsonFence + "\n" + payload + "\n" + Fence
  }

  /** A payload wrapped in a plain fence without a language tag. */
  function PlainFenced(payload: string): string {
    Fence + "\n" + payload + "\n" + Fence
  }

  lemma FenceIsTrimmed(fenced: string)
    requires |fenced| >= 1 && fenced[0] == '`' && fenced[|fenced| - 1] == '`'
    ensures Trim(fenced) == fenced
  {
    TrimOfTrimmed(fenced);
  }

  lemma NewlinesAroundTrim(p: string)
    requires IsTrimmed(p)
    ensures Trim("\n" + p + "\n") == p
  {
    assert AllSpace("\n");
    TrimRemovesExactlySurroundingSpace("\n", p, "\n");
  }

  /** The fence removal takes a "```json" fence off as a whole. */
  lemma DropFencesOfJsonFenced(p: string)
    ensures DropFences(JsonFenced(p)) == "\n" + p + "\n"
  {
    var s := JsonFenced(p);
    assert StartsWith(s, JsonFence) by {
      assert s[..|JsonFence|] == JsonFence;
    }
    var a := s[|JsonFence|..];
    assert a == "\n" + p + "\n" + Fence;
    assert !StartsWith(a, Fence) by {
      assert a[0] == '\n';
    }
    assert EndsWith(a, Fence) by {
      assert a[|a| - |Fence|..] == Fence;
    }
    assert a[..|a| - |Fence|] == "\n" + p + "\n";
  }

  /** The fence removal takes a plain fence off as a whole. */
  lemma DropFencesOfPlainFenced(p: string)
    ensures DropFences(PlainFenced(p)) == "\n" + p + "\n"
  {
    var s := PlainFenced(p);
    assert !StartsWith(s, JsonFence) by {
      assert s[3] == '\n';
      assert JsonFence[3] == 'j';
    }
    assert StartsWith(s, Fence) by {
      assert s[..|Fence|] == Fence;
    }
    var a := s[|Fence|..];
    assert a == "\n" + p + "\n" + Fence;
    assert !StartsWith(a, Fence) by {
      assert a[0] == '\n';
    }
    assert EndsWith(a, Fence) by {
      assert a[|a| - |Fence|..] == Fence;
    }
    assert a[..|a| - |Fence|] == "\n" + p + "\n";
  }

  /** Text with no fence at either end passes the fence removal untouched. */
  lemma DropFencesOfUnfenced(t: string)
    requires !StartsWith(t, Fence) && !EndsWith(t, Fence)
    ensures DropFences(t) == t
  {
    assert !StartsWith(t, JsonFence) by {
      if StartsWith(t, JsonFence) {
        assert StartsWith(JsonFence, Fence) by {
          assert JsonFence[..|Fence|] == Fence;
        }
        StartsWithTransitive(t, JsonFence, Fence);
      }
    }
  }

  /** Cleaning a "```json"-fenced trimmed payload gives the payload back. */
  lemma JsonFenceRoundTrip(p: string)
    requires IsTrimmed(p)
    ensures CleanReply(JsonFenced(p)) == p
  {
    FenceIsTrimmed(JsonFenced(p));
    DropFencesOfJsonFenced(p);
    NewlinesAroundTrim(p);
  }

  /** Cleaning a plainly fenced trimmed payload gives the payload back. */
  lemma PlainFenceRoundTrip(p: string)
    requires IsTrimmed(p)
    ensures CleanReply(PlainFenced(p)) == p
  {
    FenceIsTrimmed(PlainFenced(p));
    DropFencesOfPlainFenced(p);
    NewlinesAroundTrim(p);
  }

  /** A reply that, once stripped, neither opens nor closes with a fence is
      only stripped. */
  lemma UnfencedReplyOnlyStripped(reply: string)
    requires !StartsWith(Trim(reply), Fence) && !EndsWith(Trim(reply), Fence)
    ensures CleanReply(reply) == Trim(reply)
  {
    DropFencesOfUnfenced(Trim(reply));
    TrimIdempotent(reply);
  }

  /** Fencing a bare payload does not change what the parser sees. */
  lemma FencedAndBareCleanAlike(p: string)
    requires IsTrimmed(p) && !StartsWith(p, Fence) && !EndsWith(p, Fence)
    ensures CleanReply(JsonFenced(p)) == CleanReply(p) == p
    ensures CleanReply(PlainFenced(p)) == p
  {
    JsonFenceRoundTrip(p);
    PlainFenceRoundTrip(p);
    TrimOfTrimmed(p);
    UnfencedReplyOnlyStripped(p);
  }

  /** What `json.loads` followed by the schema constructor make of a cleaned
      reply: a record, a JSON decoding error, or any other exception the
      coercion raises (a validation error, a type error on a non-object). */
  datatype Decoded<+T> = Decoded(value: T) | NotJson | Invalid(message: string)

  /** Decoding of the cleaned text. Only a JSON decoding error is turned into
      an `HTTPException`, with the agent's own detail; any other exception
      passes through unchanged. */
  function DecodeCleaned<T>(cleaned: string, decode: string -> Decoded<T>, parseFailure: string): (r: Outcome<T>)
    ensures r.Ok? <==> decode(cleaned).Decoded?
    ensures r.Ok? ==> r.value == decode(cleaned).value
    ensures r.HttpErr? <==> decode(cleaned).NotJson?
    ensures r.HttpErr? ==> r.detail == parseFailure
    ensures r.OtherErr? ==> decode(cleaned) == Invalid(r.message)
  {
    match decode(cleaned)
    case Decoded(v) => Ok(v)
    case NotJson => HttpErr(parseFailure)
    case Invalid(m) => OtherErr(m)
  }

  /** The parse step of the page auditor and the SERP analyst: clean the
      reply, then decode it. */
  function ParseReply<T>(reply: string, decode: string -> Decoded<T>, parseFailure: string): Outcome<T> {
    DecodeCleaned(CleanReply(reply), decode, parseFailure)
  }

  /** A payload parses identically whether or not the model wrapped it in a
      "```json" fence. */
  lemma FencedReplyParsesAsBare<T>(p: string, decode: string -> Decoded<T>, parseFailure: string)
    requires IsTrimmed(p) && !StartsWith(p, Fence) && !EndsWith(p, Fence)
    ensures ParseReply(JsonFenced(p), decode, parseFailure) == ParseReply(p, decode, parseFailure)
  {
    FencedAndBareCleanAlike(p);
  }
}
