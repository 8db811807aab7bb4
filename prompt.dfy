/** The chat messages sent to the language model for one turn: a system
    message, then the transcript, then possibly a reminder. Both clients
    (app/llm.py and app/llm_with_func_calling.py) build them the same way and
    differ only in the system message and the reminder text. */
module Prompt {
  import opened Types

  datatype ChatRole = Assistant | User

  /** The system message. Its static instructions are not modelled; what is
      kept is what the client substitutes into them. */
  datatype SystemPrompt =
    | Receptionist(currentTime: string, phoneStatus: string, eventTypeId: string)
    | VoiceAgentGuidelines

  datatype Message =
    | SystemMessage(prompt: SystemPrompt)
    | ChatMessage(role: ChatRole, content: string)

  const ReminderRequired := "reminder_required"

  /** "agent" speaks as the assistant; every other role, as the user. */
  function RoleOf(role: string): (r: ChatRole)
    ensures r == Assistant <==> role == "agent"
  {
    if role == "agent" then Assistant else User
  }

  /** The message an utterance becomes. */
  function MessageOf(u: Utterance): Message {
    ChatMessage(RoleOf(u.role), u.content)
  }

  /** `prompt` is the system message, then one message per utterance in
      order, then the reminder exactly when one is required. */
  predicate IsPrompt(prompt: seq<Message>, system: SystemPrompt, transcript: seq<Utterance>,
                     interactionType: string, reminder: string)
  {
    var extra := if interactionType == ReminderRequired then 1 else 0;
    && |prompt| == 1 + |transcript| + extra
    && prompt[0] == SystemMessage(system)
    && (forall i :: 0 <= i < |transcript| ==> prompt[1 + i] == MessageOf(transcript[i]))
    && (interactionType == ReminderRequired ==> prompt[|prompt| - 1] == ChatMessage(User, reminder))
  }

  /** `convert_transcript_to_openai_messages`: one message per utterance,
      same order, same content. */
  method ConvertTranscript(transcript: seq<Utterance>) returns (messages: seq<Message>)
    ensures |messages| == |transcript|
    ensures forall i :: 0 <= i < |transcript| ==>
              messages[i] == ChatMessage(RoleOf(transcript[i].role), transcript[i].content)
  {
    messages := [];
    for i := 0 to |transcript|
      invariant |messages| == i
      invariant forall j :: 0 <= j < i ==> messages[j] == MessageOf(transcript[j])
    {
      var utterance := transcript[i];
      if utterance.role == "agent" {
        messages := messages + [ChatMessage(Assistant, utterance.content)];
      } else {
        messages := messages + [ChatMessage(User, utterance.content)];
      }
    }
  }

  /** The common body of both `prepare_prompt`s. */
  method BuildPrompt(system: SystemPrompt, transcript: seq<Utterance>,
                     interactionType: string, reminder: string)
    returns (prompt: seq<Message>)
    ensures IsPrompt(prompt, system, transcript, interactionType, reminder)
  {
    prompt := [SystemMessage(system)];
    var transcriptMessages := ConvertTranscript(transcript);
    for i := 0 to |transcriptMessages|
      invariant prompt == [SystemMessage(system)] + transcriptMessages[..i]
    {
      prompt := prompt + [transcriptMessages[i]];
    }
    assert transcriptMessages[..|transcriptMessages|] == transcriptMessages;
    if interactionType == ReminderRequired {
      prompt := prompt + [ChatMessage(User, reminder)];
    }
  }
}
