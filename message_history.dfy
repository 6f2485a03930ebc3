/**
 * The message-history container that wraps a model conversation: a list of
 * request and response messages, each holding a list of parts tagged with a
 * `part_kind`.
 */
module Messages {
  import opened Wrappers

  /** The part classes a conversation message can hold. */
  datatype PartType =
    | SystemPromptPart
    | UserPromptPart
    | ToolReturnPart
    | RetryPromptPart
    | TextPart
    | ToolCallPart

  datatype Part = Part(ptype: PartType, content: string)

  datatype Message =
    | ModelRequest(parts: seq<Part>)
    | ModelResponse(parts: seq<Part>)

  /** What `append` can be handed: a part, or an object of some other type. */
  datatype Appendee = APart(part: Part) | NotAPart(typeName: string)

  datatype TypeError = TypeError(message: string)

  /** The `part_kind` tag each part class carries. */
  function KindOf(t: PartType): (k: string)
    ensures k == "system-prompt" <==> t.SystemPromptPart?
  {
    match t
    case SystemPromptPart => "system-prompt"
    case UserPromptPart => "user-prompt"
    case ToolReturnPart => "tool-return"
    case RetryPromptPart => "retry-prompt"
    case TextPart => "text"
    case ToolCallPart => "tool-call"
  }

  function PartKind(p: Part): string {
    KindOf(p.ptype)
  }

  /** The classes of a model request part. */
  predicate IsRequestPart(t: PartType) {
    t.SystemPromptPart? || t.UserPromptPart? || t.ToolReturnPart? || t.RetryPromptPart?
  }

  /** Two part classes share a `part_kind` tag only when they are the same class. */
  lemma KindOfInjective(t: PartType, u: PartType)
    ensures KindOf(t) == KindOf(u) <==> t == u
  {
  }

  const InvalidPartPrefix := "Invalid part type: "

  /** The text of the TypeError raised for an object that is not a part: it names the offending type. */
  function InvalidPartMessage(typeName: string): (m: string)
    ensures |InvalidPartPrefix| + |typeName| <= |m|
    ensures m[..|InvalidPartPrefix|] == InvalidPartPrefix
    ensures m[|InvalidPartPrefix|..|InvalidPartPrefix| + |typeName|] == typeName
  {
    InvalidPartPrefix + typeName + ". Expected one of: "
    + "SystemPromptPart, UserPromptPart, ToolReturnPart, RetryPromptPart, TextPart, ToolCallPart."
  }

  /** The parts of `ps` whose kind is not `kind`, in their original order. */
  function WithoutKind(ps: seq<Part>, kind: string): seq<Part>
  {
    if ps == [] then []
    else if PartKind(ps[0]) == kind then WithoutKind(ps[1..], kind)
    else [ps[0]] + WithoutKind(ps[1..], kind)
  }

  function StripMessage(m: Message, kind: string): Message {
    m.(parts := WithoutKind(m.parts, kind))
  }

  /** Every message of `ms`, with the parts of kind `kind` taken out. */
  function StripKind(ms: seq<Message>, kind: string): seq<Message> {
    seq(|ms|, i requires 0 <= i < |ms| => StripMessage(ms[i], kind))
  }

  predicate NoPartOfKind(ms: seq<Message>, kind: string) {
    forall i, j :: 0 <= i < |ms| && 0 <= j < |ms[i].parts| ==> PartKind(ms[i].parts[j]) != kind
  }

  /** Python's `list.remove`: drop the first element equal to `x`. */
  function RemoveFirst(ps: seq<Part>, x: Part): (r: seq<Part>)
    requires x in ps
    ensures |r| == |ps| - 1
  {
    if ps[0] == x then ps[1..] else [ps[0]] + RemoveFirst(ps[1..], x)
  }

  lemma {:induction false} WithoutKindMembership(ps: seq<Part>, kind: string, p: Part)
    ensures p in WithoutKind(ps, kind) <==> p in ps && PartKind(p) != kind
  {
    if ps != [] {
      WithoutKindMembership(ps[1..], kind, p);
      assert ps == [ps[0]] + ps[1..];
    }
  }

  /** Filtering distributes over concatenation: survivors keep their relative order. */
  lemma {:induction false} WithoutKindConcat(a: seq<Part>, b: seq<Part>, kind: string)
    ensures WithoutKind(a + b, kind) == WithoutKind(a, kind) + WithoutKind(b, kind)
  {
    if a != [] {
      assert (a + b)[1..] == a[1..] + b;
      WithoutKindConcat(a[1..], b, kind);
    } else {
      assert a + b == b;
    }
  }

  lemma WithoutKindSnoc(a: seq<Part>, x: Part, kind: string)
    ensures WithoutKind(a + [x], kind) == WithoutKind(a, kind) + (if PartKind(x) == kind then [] else [x])
  {
    WithoutKindConcat(a, [x], kind);
    assert WithoutKind([x], kind) == (if PartKind(x) == kind then [] else [x]) by {
      assert [x][1..] == [];
    }
  }

  /** A list with no part of the kind is left as it is. */
  lemma {:induction false} WithoutKindOfClean(ps: seq<Part>, kind: string)
    requires forall p :: p in ps ==> PartKind(p) != kind
    ensures WithoutKind(ps, kind) == ps
  {
    if ps != [] {
      WithoutKindOfClean(ps[1..], kind);
    }
  }

  lemma {:induction false} WithoutKindIdempotent(ps: seq<Part>, kind: string)
    ensures WithoutKind(WithoutKind(ps, kind), kind) == WithoutKind(ps, kind)
  {
    forall p | p in WithoutKind(ps, kind) ensures PartKind(p) != kind {
      WithoutKindMembership(ps, kind, p);
    }
    WithoutKindOfClean(WithoutKind(ps, kind), kind);
  }

  /** Removing the first occurrence of a part that does not occur before position |a|. */
  lemma {:induction false} RemoveFirstAfter(a: seq<Part>, x: Part, b: seq<Part>)
    requires x !in a
    ensures x in a + [x] + b
    ensures RemoveFirst(a + [x] + b, x) == a + b
  {
    if a != [] {
      assert (a + [x] + b)[1..] == a[1..] + [x] + b;
      RemoveFirstAfter(a[1..], x, b);
    } else {
      assert a + [x] + b == [x] + b;
    }
  }

  /** After the strip no part of that kind is left in any message. */
  lemma StripKindRemovesAll(ms: seq<Message>, kind: string)
    ensures NoPartOfKind(StripKind(ms, kind), kind)
  {
    var r := StripKind(ms, kind);
    forall i, j | 0 <= i < |r| && 0 <= j < |r[i].parts| ensures PartKind(r[i].parts[j]) != kind {
      WithoutKindMembership(ms[i].parts, kind, r[i].parts[j]);
    }
  }

  /**
   * The strip keeps every message, request or response, even one left with no
   * parts, and keeps exactly the parts of the other kinds.
   */
  lemma StripKindKeepsMessages(ms: seq<Message>, kind: string)
    ensures |StripKind(ms, kind)| == |ms|
    ensures forall i :: 0 <= i < |ms| ==>
      && StripKind(ms, kind)[i].ModelRequest? == ms[i].ModelRequest?
      && (forall p :: p in StripKind(ms, kind)[i].parts <==> p in ms[i].parts && PartKind(p) != kind)
  {
    forall i, p | 0 <= i < |ms|
      ensures p in StripKind(ms, kind)[i].parts <==> p in ms[i].parts && PartKind(p) != kind
    {
      WithoutKindMembership(ms[i].parts, kind, p);
    }
  }

  lemma StripKindIdempotent(ms: seq<Message>, kind: string)
    ensures StripKind(StripKind(ms, kind), kind) == StripKind(ms, kind)
  {
    forall i | 0 <= i < |ms| ensures StripKind(StripKind(ms, kind), kind)[i] == StripKind(ms, kind)[i] {
      WithoutKindIdempotent(ms[i].parts, kind);
    }
  }

  /** The live list of the inner loop at step `j`, split around `parts[j]`. */
  lemma SplitAt(parts: seq<Part>, j: nat, kind: string)
    requires j < |parts|
    ensures WithoutKind(parts[..j], kind) + parts[j..]
      == WithoutKind(parts[..j], kind) + [parts[j]] + parts[j + 1..]
    ensures WithoutKind(parts[..j + 1], kind)
      == WithoutKind(parts[..j], kind) + (if PartKind(parts[j]) == kind then [] else [parts[j]])
  {
    assert parts[j..] == [parts[j]] + parts[j + 1..];
    assert parts[..j + 1] == parts[..j] + [parts[j]];
    WithoutKindSnoc(parts[..j], parts[j], kind);
  }

  /** A step of the inner loop that removes `parts[j]` from the live list. */
  lemma RemoveStep(parts: seq<Part>, j: nat, kind: string)
    requires j < |parts| && PartKind(parts[j]) == kind
    ensures parts[j] in WithoutKind(parts[..j], kind) + parts[j..]
    ensures RemoveFirst(WithoutKind(parts[..j], kind) + parts[j..], parts[j])
      == WithoutKind(parts[..j + 1], kind) + parts[j + 1..]
  {
    var done, x, rest := WithoutKind(parts[..j], kind), parts[j], parts[j + 1..];
    SplitAt(parts, j, kind);
    assert WithoutKind(parts[..j + 1], kind) == done;
    WithoutKindMembership(parts[..j], kind, x);
    RemoveFirstAfter(done, x, rest);
  }

  /** A step of the inner loop that keeps `parts[j]`. */
  lemma KeepStep(parts: seq<Part>, j: nat, kind: string)
    requires j < |parts| && PartKind(parts[j]) != kind
    ensures WithoutKind(parts[..j], kind) + parts[j..] == WithoutKind(parts[..j + 1], kind) + parts[j + 1..]
  {
    SplitAt(parts, j, kind);
  }

  /**
   * The inner loop of `remove_part_kind` on one message: walk a copy of the
   * parts and remove from the live list each part of kind `kind`.
   */
  method RemoveKindFromParts(parts: seq<Part>, kind: string) returns (current: seq<Part>)
    ensures current == WithoutKind(parts, kind)
  {
    current := parts;
    var j := 0;
    while j < |parts|
      invariant 0 <= j <= |parts|
      invariant current == WithoutKind(parts[..j], kind) + parts[j..]
    {
      var part := parts[j];
      if PartKind(part) == kind {
        RemoveStep(parts, j, kind);
        current := RemoveFirst(current, part);
      } else {
        KeepStep(parts, j, kind);
      }
      j := j + 1;
    }
    assert parts[..j] == parts;
  }

  class MessageHistory {
    var messages: seq<Message>

    /** A new history holds no message. */
    constructor()
      ensures messages == []
    {
      messages := [];
    }

    /** Replaces the stored list and returns the same history. */
    method Assign(ms: seq<Message>) returns (self: MessageHistory)
      modifies this
      ensures self == this
      ensures messages == ms
    {
      messages := ms;
      self := this;
    }

    /**
     * Wraps a request part as a request message and a response part as a
     * response message at the end; anything else is a TypeError.
     */
    method Append(x: Appendee) returns (r: Result<MessageHistory, TypeError>)
      modifies this
      ensures x.APart? && IsRequestPart(x.part.ptype) ==>
        r == Ok(this) && messages == old(messages) + [ModelRequest([x.part])]
      ensures x.APart? && !IsRequestPart(x.part.ptype) ==>
        r == Ok(this) && messages == old(messages) + [ModelResponse([x.part])]
      ensures x.NotAPart? ==>
        r == Err(TypeError(InvalidPartMessage(x.typeName))) && messages == old(messages)
    {
      if x.APart? && IsRequestPart(x.part.ptype) {
        messages := messages + [ModelRequest([x.part])];
        return Ok(this);
      }
      if x.APart? {
        messages := messages + [ModelResponse([x.part])];
        return Ok(this);
      }
      r := Err(TypeError(InvalidPartMessage(x.typeName)));
    }

    /**
     * Takes every part of kind `kind` out of every message, walking a copy of
     * each message's parts and removing each matching part from the original.
     */
    method RemovePartKind(kind: string) returns (self: MessageHistory)
      modifies this
      ensures self == this
      ensures messages == StripKind(old(messages), kind)
    {
      var i := 0;
      while i < |messages|
        invariant 0 <= i <= |messages| == |old(messages)|
        invariant forall k :: 0 <= k < i ==> messages[k] == StripMessage(old(messages)[k], kind)
        invariant forall k :: i <= k < |messages| ==> messages[k] == old(messages)[k]
      {
        var item := messages[i];
        var current := RemoveKindFromParts(item.parts, kind);
        messages := messages[i := item.(parts := current)];
        i := i + 1;
      }
      self := this;
    }

    method GetAllMessages() returns (ms: seq<Message>)
      ensures ms == messages
    {
      ms := messages;
    }
  }
}
