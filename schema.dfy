/** The parts of the activity schema the pipeline looks at. */
module Schema {
  import opened Wrappers

  datatype ActivityType = Message | Trace | Typing | ConversationUpdate

  /** An inbound or outbound activity. The id is null until something assigns it. */
  datatype Activity = Activity(
    kind: ActivityType,
    id: Option<string>,
    text: string,
    channelId: string,
    conversationId: string)

  /** Where an activity lives: what `DeleteActivity` hands to the adapter. */
  datatype ConversationReference = ConversationReference(
    activityId: Option<string>,
    channelId: string,
    conversationId: string)

  /** What the adapter answers for one delivered activity. */
  datatype ResourceResponse = ResourceResponse(id: Option<string>)

  /** `activity.CreateReply(text)` and `context.SendActivity(text)`: a message to the
      same conversation, with no id yet. */
  function Reply(inbound: Activity, text: string): Activity {
    Activity(Message, None, text, inbound.channelId, inbound.conversationId)
  }

  /** The conversation reference of an activity, pointing at that activity. */
  function ReferenceOf(a: Activity): ConversationReference {
    ConversationReference(a.id, a.channelId, a.conversationId)
  }

  /** The texts of a sequence of activities, in order. */
  function Texts(acts: seq<Activity>): (ts: seq<string>)
    ensures |ts| == |acts|
    ensures forall i :: 0 <= i < |acts| ==> ts[i] == acts[i].text
  {
    if acts == [] then [] else [acts[0].text] + Texts(acts[1..])
  }
}
