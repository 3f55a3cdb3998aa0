/**
 * The chat panel of components/tutor/enhanced-chat-interface.tsx: the send
 * guard, the request/response round trip as two steps, and the normalization
 * of a reply's raw annotations into store records.
 */
module ChatClient {
  import opened Options
  import opened Text
  import opened Annotations
  import opened Tutor

  /** The default colour of AI annotations. */
  const AiDefaultColor: string := "#dc2626"
  const DefaultKind: string := "highlight"
  const DefaultX: real := 0.0
  const DefaultY: real := 0.0
  const DefaultWidth: real := 10.0
  const DefaultHeight: real := 5.0
  const CaptionLength: nat := 100
  const FallbackReply: string := "Sorry, I encountered an error. Please try again."

  /** `ai-<messageId>-<index>`. */
  function AiId(messageId: string, index: nat): (id: string)
    ensures |id| == 4 + |messageId| + |NatToString(index)|
    ensures StartsWith(id, "ai-") && id[3..3 + |messageId|] == messageId
    ensures id[3 + |messageId|] == '-' && id[4 + |messageId|..] == NatToString(index)
  {
    var id := "ai-" + messageId + "-" + NatToString(index);
    assert id[..3] == "ai-";
    id
  }

  /** `value || fallback` for a string field: an absent, null or empty value falls back. */
  function OrString(value: Option<string>, fallback: string): (r: string)
    ensures r == fallback || (value == Some(r) && r != "")
    ensures value.Some? && value.value != "" ==> r == value.value
  {
    if value.Some? && value.value != "" then value.value else fallback
  }

  /** `value || fallback` for a number field: an absent, null or zero value falls back. */
  function OrNumber(value: Option<real>, fallback: real): (r: real)
    ensures r == fallback || (value == Some(r) && r != 0.0)
    ensures value.Some? && value.value != 0.0 ==> r == value.value
  {
    if value.Some? && value.value != 0.0 then value.value else fallback
  }

  /**
   * One raw annotation of a reply, as the `.map` callback builds it: defaults
   * for falsy fields, the reply-scoped id, the reply's first 100 characters
   * as caption, and the AI as creator.
   */
  function Normalize(raw: RawAnnotation, messageId: string, index: nat, content: string, now: int): (a: Annotation)
    ensures a.id == AiId(messageId, index)
    ensures a.createdBy == Ai && a.timestamp == now
    ensures a.text == Some(Take(content, CaptionLength))
    ensures a.kind != "" && a.color != ""
    ensures a.width != 0.0 && a.height != 0.0
    ensures a.kind == OrString(raw.kind, DefaultKind) && a.color == OrString(raw.color, AiDefaultColor)
    ensures a.width == OrNumber(raw.width, DefaultWidth) && a.height == OrNumber(raw.height, DefaultHeight)
    ensures a.x == (if raw.x.Some? then raw.x.value else 0.0)
    ensures a.y == (if raw.y.Some? then raw.y.value else 0.0)
  {
    Annotation(
      AiId(messageId, index),
      OrString(raw.kind, DefaultKind),
      OrNumber(raw.x, DefaultX),
      OrNumber(raw.y, DefaultY),
      OrNumber(raw.width, DefaultWidth),
      OrNumber(raw.height, DefaultHeight),
      OrString(raw.color, AiDefaultColor),
      Some(Take(content, CaptionLength)),
      Ai,
      now)
  }

  /** The raw object that describes an annotation's own fields. */
  function ToRaw(a: Annotation): RawAnnotation {
    RawAnnotation(Some(a.kind), Some(a.x), Some(a.y), Some(a.width), Some(a.height), Some(a.color))
  }

  /**
   * Normalizing the raw form of an annotation gives its geometry, type and
   * colour back, except where `||` replaces a falsy value: an empty type or
   * colour, or a zero width or height. Zero x and y survive because their
   * default is zero.
   */
  lemma NormalizeRoundTrip(a: Annotation, messageId: string, index: nat, content: string, now: int)
    requires a.kind != "" && a.color != "" && a.width != 0.0 && a.height != 0.0
    ensures var b := Normalize(ToRaw(a), messageId, index, content, now);
            b.kind == a.kind && b.x == a.x && b.y == a.y &&
            b.width == a.width && b.height == a.height && b.color == a.color
  {
  }

  /** A zero width is falsy and becomes 10, like an absent one. */
  lemma ZeroWidthBecomesDefault(raw: RawAnnotation, messageId: string, index: nat, content: string, now: int)
    requires raw.width == Some(0.0) || raw.width == None
    ensures Normalize(raw, messageId, index, content, now).width == DefaultWidth
  {
  }

  /** `{x: 20, y: 30}` becomes a 10 by 5 highlight at (20, 30) in the AI colour. */
  lemma PositionOnlyDefaults(messageId: string, content: string, now: int)
    ensures var a := Normalize(RawAnnotation(None, Some(20.0), Some(30.0), None, None, None), messageId, 0, content, now);
            a.kind == "highlight" && a.x == 20.0 && a.y == 30.0 &&
            a.width == 10.0 && a.height == 5.0 && a.color == AiDefaultColor
  {
  }

  /** Different positions in one reply give different ids. */
  lemma AiIdsDistinct(messageId: string, i: nat, j: nat)
    requires i != j
    ensures AiId(messageId, i) != AiId(messageId, j)
  {
    var p := "ai-" + messageId + "-";
    if AiId(messageId, i) == AiId(messageId, j) {
      assert AiId(messageId, i)[|p|..] == NatToString(i);
      assert AiId(messageId, j)[|p|..] == NatToString(j);
      NatToStringInjective(i, j);
    }
  }

  /**
   * Exactly when an AI id contains `page-`: when the message id followed by
   * the separating `-` does. The `ai-` prefix has no `p`, and the index
   * digits have no `-`, so no other occurrence is possible.
   */
  lemma AiIdHasPage(messageId: string, index: nat)
    ensures Contains(AiId(messageId, index), "page-") <==> Contains(messageId + "-", "page-")
  {
    var t := messageId + "-";
    var ds := NatToString(index);
    assert AiId(messageId, index) == "ai-" + t + ds;
    if Contains(t, "page-") {
      PageShiftsIntoId(t, ds, IndexOf(t, "page-").value);
      ContainsAt("ai-" + t + ds, "page-", IndexOf(t, "page-").value + 3);
    }
    if Contains("ai-" + t + ds, "page-") {
      PageComesFromMessage(t, ds, IndexOf("ai-" + t + ds, "page-").value);
      ContainsAt(t, "page-", IndexOf("ai-" + t + ds, "page-").value - 3);
    }
  }

  lemma PageShiftsIntoId(t: string, ds: string, k: nat)
    requires OccursAt(t, "page-", k)
    ensures OccursAt("ai-" + t + ds, "page-", k + 3)
  {
    var id := "ai-" + t + ds;
    assert id[k + 3..k + 8] == t[k..k + 5];
  }

  lemma PageComesFromMessage(t: string, ds: string, j: nat)
    requires AllDigits(ds)
    requires OccursAt("ai-" + t + ds, "page-", j)
    ensures j >= 3 && OccursAt(t, "page-", j - 3)
  {
    var id := "ai-" + t + ds;
    assert id[j] == id[j..j + 5][0] == 'p';
    assert id[j + 4] == id[j..j + 5][4] == '-';
    assert j >= 3 by {
      assert id[0] == 'a' && id[1] == 'i' && id[2] == '-';
    }
    assert forall i :: |t| + 3 <= i < |id| ==> id[i] == ds[i - |t| - 3] && IsDigit(id[i]);
    assert id[j..j + 5] == t[j - 3..j + 2];
  }

  /**
   * A sufficient condition for `AiIdHasPage` to say no: a message id free
   * of `-` that does not end in `page` gives an id without `page-`, so the
   * annotation is global. The model does not fix the format of the
   * server's message ids; this is a condition, not a fact about them.
   */
  lemma AiIdIsGlobal(messageId: string, index: nat)
    requires forall k :: 0 <= k < |messageId| ==> messageId[k] != '-'
    requires !EndsWith(messageId, "page")
    ensures !Contains(AiId(messageId, index), "page-")
  {
    var id := AiId(messageId, index);
    var ds := NatToString(index);
    var m := messageId;
    assert |id| == |m| + 4 + |ds|;
    forall j: nat | j + 5 <= |id|
      ensures !OccursAt(id, "page-", j)
    {
      if j + 4 == |m| + 3 {
        if |m| >= 4 {
          assert id[j..j + 4] == m[|m| - 4..];
          assert !OccursAt(m, "page", |m| - 4);
          assert id[j..j + 5][..4] == id[j..j + 4];
          assert "page-"[..4] == "page";
        } else {
          assert id[2] == '-';
          assert id[j..j + 5][2 - j] == '-';
          assert "page-"[2 - j] != '-';
        }
      } else if j + 4 < |m| + 3 {
        assert id[j + 4] == m[j + 1];
        assert id[j..j + 5][4] != '-';
        assert "page-"[4] == '-';
      } else {
        assert id[j + 4] == ds[j + 4 - |m| - 4];
        assert id[j..j + 5][4] != '-';
        assert "page-"[4] == '-';
      }
    }
  }

  /**
   * The other side of `AiIdIsGlobal`: a message id ending in `page` puts
   * `page-` inside the AI id, so the annotation is not global, and the id
   * starts with `ai-`, so it is tagged with no page either: no page shows it.
   */
  lemma AiIdEndingInPageIsHidden(raw: RawAnnotation, messageId: string, index: nat, content: string, now: int, page: nat)
    requires EndsWith(messageId, "page")
    ensures var a := Normalize(raw, messageId, index, content, now);
            !IsGlobal(a) && !OnPage(a, page)
  {
    var m := messageId;
    var id := AiId(m, index);
    assert id[3..3 + |m|] == m;
    assert id[3 + |m|] == '-';
    assert id[|m| - 1..|m| + 4] == m[|m| - 4..] + "-";
    ContainsAt(id, "page-", |m| - 1);
    var tag := PageTag(page);
    assert tag[0] == 'p' && id[0] == 'a';
    if |tag| <= |id| {
      assert id[..|tag|][0] != tag[0];
    }
  }

  /**
   * The whole reply batch: one record per raw annotation, same order, ids
   * distinct within the reply.
   */
  function NormalizeBatch(raws: seq<RawAnnotation>, messageId: string, content: string, now: int): (batch: seq<Annotation>)
    ensures |batch| == |raws|
    ensures forall i :: 0 <= i < |raws| ==> batch[i] == Normalize(raws[i], messageId, i, content, now)
    ensures forall i, j :: 0 <= i < j < |batch| ==> batch[i].id != batch[j].id
  {
    var batch := seq(|raws|, i requires 0 <= i < |raws| => Normalize(raws[i], messageId, i, content, now));
    assert forall i, j :: 0 <= i < j < |batch| ==> batch[i].id != batch[j].id by {
      forall i, j | 0 <= i < j < |batch| ensures batch[i].id != batch[j].id {
        AiIdsDistinct(messageId, i, j);
      }
    }
    batch
  }

  // ------------------------------------------------------------ the panel

  datatype Role = UserRole | AssistantRole

  datatype ChatMessage = ChatMessage(
    id: string,
    content: string,
    role: Role,
    pageNumber: Option<nat>,
    annotations: Option<seq<RawAnnotation>>,
    createdAt: int)

  /** The body of a successful `/api/chat` response. */
  datatype Reply = Reply(
    messageId: string,
    content: string,
    pageNumber: Option<nat>,
    annotations: Option<seq<RawAnnotation>>,
    chatId: string)

  /** How the request ended: a parsed reply, or a non-ok status or thrown error (handled alike). */
  datatype Response = Received(reply: Reply) | Failed

  /** What the panel posts to `/api/chat`. */
  datatype Request = Request(message: string, chatId: Option<string>)

  /** `if (data.pageNumber)`: null and 0 are falsy. */
  predicate Navigates(reply: Reply): (r: bool)
    ensures r ==> reply.pageNumber.Some? && reply.pageNumber.value >= 1
    ensures reply.pageNumber.None? || reply.pageNumber == Some(0) ==> !r
    ensures reply.pageNumber.Some? && reply.pageNumber.value >= 1 ==> r
  {
    reply.pageNumber.Some? && reply.pageNumber.value != 0
  }

  /** The batch `onAnnotationAdd` receives, or nothing when the list is null or empty. */
  function AddedBatch(reply: Reply, now: int): (batch: seq<Annotation>)
    ensures reply.annotations.None? ==> batch == []
    ensures reply.annotations.Some? ==> |batch| == |reply.annotations.value|
    ensures forall i :: 0 <= i < |batch| ==> batch[i].createdBy == Ai && batch[i].id == AiId(reply.messageId, i)
    ensures reply.annotations.Some? ==>
              forall i :: 0 <= i < |batch| ==>
                batch[i] == Normalize(reply.annotations.value[i], reply.messageId, i, reply.content, now)
  {
    match reply.annotations
    case None => []
    case Some(raws) => if |raws| > 0 then NormalizeBatch(raws, reply.messageId, reply.content, now) else []
  }

  function UserMessage(text: string, now: nat): ChatMessage {
    ChatMessage(NatToString(now), text, UserRole, None, None, now)
  }

  function AssistantMessage(reply: Reply, now: int): ChatMessage {
    ChatMessage(reply.messageId, reply.content, AssistantRole, reply.pageNumber, reply.annotations, now)
  }

  function FallbackMessage(now: nat): ChatMessage {
    ChatMessage(NatToString(now), FallbackReply, AssistantRole, None, None, now)
  }

  class ChatSession {
    var messages: seq<ChatMessage>
    var input: string
    var isLoading: bool
    var chatId: Option<string>

    /** The panel opens on the current chat's messages and id, if there is a chat. */
    constructor (history: seq<ChatMessage>, existingChat: Option<string>)
      ensures messages == history && input == [] && !isLoading && chatId == existingChat
    {
      messages := history;
      input := [];
      isLoading := false;
      chatId := existingChat;
    }

    /** Typing, or picking a quick question. */
    method SetInput(text: string)
      modifies this
      ensures input == text
      ensures messages == old(messages) && isLoading == old(isLoading) && chatId == old(chatId)
    {
      input := text;
    }

    /**
     * The synchronous part of `handleSendMessage`: nothing happens when the
     * input trims to empty or a request is in flight; otherwise the trimmed
     * input is appended as a user message, the input cleared and loading set.
     */
    method BeginSend(now: nat) returns (request: Option<Request>)
      modifies this
      ensures Trim(old(input)) == [] || old(isLoading) ==>
                request == None &&
                messages == old(messages) && input == old(input) &&
                isLoading == old(isLoading) && chatId == old(chatId)
      ensures Trim(old(input)) != [] && !old(isLoading) ==>
                request == Some(Request(Trim(old(input)), old(chatId))) &&
                messages == old(messages) + [UserMessage(Trim(old(input)), now)] &&
                input == [] && isLoading && chatId == old(chatId)
    {
      var text := Trim(input);
      if text == [] || isLoading {
        return None;
      }
      messages := messages + [UserMessage(text, now)];
      input := [];
      isLoading := true;
      request := Some(Request(text, chatId));
    }

    /**
     * The rest of `handleSendMessage`, once the response is in: a reply is
     * appended and its page and annotations handed to the session (each at
     * most once); a failure appends exactly one fallback message and touches
     * nothing else. Loading ends either way.
     */
    method CompleteSend(response: Response, now: nat, tutor: TutorSession)
      modifies this, tutor
      ensures !isLoading && input == old(input)
      ensures response.Failed? ==>
                messages == old(messages) + [FallbackMessage(now)] &&
                chatId == old(chatId) &&
                tutor.currentPage == old(tutor.currentPage) &&
                tutor.annotations == old(tutor.annotations)
      ensures response.Received? ==>
                messages == old(messages) + [AssistantMessage(response.reply, now)] &&
                chatId == Some(response.reply.chatId) &&
                tutor.currentPage ==
                  (if Navigates(response.reply) then response.reply.pageNumber.value else old(tutor.currentPage)) &&
                tutor.annotations == old(tutor.annotations) + AddedBatch(response.reply, now)
    {
      match response {
        case Failed =>
          messages := messages + [FallbackMessage(now)];
        case Received(reply) =>
          messages := messages + [AssistantMessage(reply, now)];
          chatId := Some(reply.chatId);
          if Navigates(reply) {
            tutor.SetPage(reply.pageNumber.value);
          }
          if reply.annotations.Some? && |reply.annotations.value| > 0 {
            tutor.AddAnnotations(NormalizeBatch(reply.annotations.value, reply.messageId, reply.content, now));
          }
      }
      isLoading := false;
    }
  }
}
