/** Canonical conversation messages: the shape the gateway stores per session
    and hands to every provider adapter (be-go/main.go, type Message). */
module Transcript {

  /** One turn of a conversation. The role is free text; "user", "ai" and
      "system" are the roles the adapters understand. */
  datatype Message = Message(role: string, text: string)

  const UserRole: string := "user"
  const AiRole: string := "ai"
  const SystemRole: string := "system"

  /** The policy message seeded into every new session. */
  const SystemPrompt: Message :=
    Message(SystemRole, "You are a helpful and friendly AI assistant. Keep your answers concise.")

  /** The roles every adapter's role table recognises. */
  predicate IsKnownRole(role: string) {
    role == UserRole || role == AiRole || role == SystemRole
  }

  /** The messages an adapter forwards upstream: those whose role is known,
      in their original order. Every adapter skips the others. */
  function Known(c: seq<Message>): (r: seq<Message>)
    ensures |r| <= |c|
    ensures forall i :: 0 <= i < |r| ==> IsKnownRole(r[i].role)
  {
    if |c| == 0 then []
    else (if IsKnownRole(c[0].role) then [c[0]] else []) + Known(c[1..])
  }

  /** Filtering distributes over concatenation: the known messages of an
      earlier stretch of the transcript precede those of a later one. */
  lemma {:induction false} KnownAppend(a: seq<Message>, b: seq<Message>)
    ensures Known(a + b) == Known(a) + Known(b)
  {
    if |a| == 0 {
      assert a + b == b;
    } else {
      assert (a + b)[1..] == a[1..] + b;
      KnownAppend(a[1..], b);
    }
  }

  /** A message survives filtering exactly when it is in the transcript and
      its role is known. */
  lemma {:induction false} KnownMembers(c: seq<Message>, m: Message)
    ensures m in Known(c) <==> m in c && IsKnownRole(m.role)
  {
    if |c| > 0 {
      KnownMembers(c[1..], m);
      assert c == [c[0]] + c[1..];
    }
  }

  /** Nothing is dropped exactly when every role in the transcript is known. */
  lemma {:induction false} KnownKeepsAll(c: seq<Message>)
    ensures Known(c) == c <==> forall i :: 0 <= i < |c| ==> IsKnownRole(c[i].role)
  {
    if |c| > 0 {
      KnownKeepsAll(c[1..]);
      if !IsKnownRole(c[0].role) {
        assert |Known(c)| <= |c[1..]| < |c|;
      }
    }
  }

  /** A filter that keeps as many messages as it was given kept them all. */
  lemma {:induction false} KnownLengthMeansAll(c: seq<Message>)
    requires |Known(c)| == |c|
    ensures Known(c) == c
  {
    if |c| > 0 && IsKnownRole(c[0].role) {
      KnownLengthMeansAll(c[1..]);
    }
  }
}
