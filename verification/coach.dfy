/**
 * The AI-coach conversation store: the message list, the daily quota of free
 * messages, and the two steps of a send (the accepted request, then the
 * reply or the error that completes it).
 *
 * The day string, the clock (`Date.now()`), the welcome message the coach
 * service builds and the coach's reply are parameters.
 */
module Coach {
  import opened Text
  import opened Types

  datatype Role = User | Assistant | System

  datatype CoachMessage = CoachMessage(id: string, role: Role, content: string, timestamp: int)

  /** The remaining-message count shown to premium users. */
  const PREMIUM_REMAINING: int := 999

  /** The assistant message shown when the coach request fails. */
  const ERROR_REPLY: string := "죄송해요, 잠시 문제가 생겼어요. 다시 시도해 주세요 \U{1F64F}"

  /** `genMsgId`: the clock and the running counter. */
  function MessageId(now: int, counter: int): string {
    "msg_" + IntToString(now) + "_" + IntToString(counter)
  }

  /** The state of `useCoachStore`, with the module's message-id counter. */
  class CoachStore {
    var messages: seq<CoachMessage>
    var isLoading: bool
    var dailyUsageCount: int
    var lastUsageDate: string
    var isPremium: bool
    var msgIdCounter: int

    /** A free user never holds more than the daily limit of sends. */
    ghost predicate Valid()
      reads this
    {
      0 <= dailyUsageCount && (isPremium || dailyUsageCount <= AI_COACH_FREE_LIMIT)
    }

    constructor()
      ensures messages == [] && !isLoading && dailyUsageCount == 0 && lastUsageDate == ""
      ensures !isPremium && msgIdCounter == 0
      ensures Valid()
    {
      messages := [];
      isLoading := false;
      dailyUsageCount := 0;
      lastUsageDate := "";
      isPremium := false;
      msgIdCounter := 0;
    }

    /** `canSendMessage` on day `today`: premium, a new day, or quota left. */
    predicate CanSendMessage(today: string)
      reads this
    {
      isPremium || lastUsageDate != today || dailyUsageCount < AI_COACH_FREE_LIMIT
    }

    /**
     * `getRemainingMessages` on day `today`. For a free user it is positive
     * exactly when a message may be sent, and it never exceeds the limit.
     */
    function RemainingMessages(today: string): (r: int)
      reads this
      ensures isPremium ==> r == PREMIUM_REMAINING
      ensures r >= 0
      ensures !isPremium && dailyUsageCount >= 0 ==> r <= AI_COACH_FREE_LIMIT
      ensures !isPremium ==> (r > 0 <==> CanSendMessage(today))
      ensures !isPremium && lastUsageDate == today && dailyUsageCount >= 0 ==> r + dailyUsageCount >= AI_COACH_FREE_LIMIT
    {
      if isPremium then PREMIUM_REMAINING
      else if lastUsageDate != today then AI_COACH_FREE_LIMIT
      else if AI_COACH_FREE_LIMIT - dailyUsageCount > 0 then AI_COACH_FREE_LIMIT - dailyUsageCount
      else 0
    }

    /** `initConversation`: the welcome message, only into an empty conversation. */
    method InitConversation(welcome: CoachMessage)
      modifies this
      ensures messages == if old(messages) == [] then [welcome] else old(messages)
      ensures isLoading == old(isLoading) && dailyUsageCount == old(dailyUsageCount)
      ensures lastUsageDate == old(lastUsageDate) && isPremium == old(isPremium) && msgIdCounter == old(msgIdCounter)
      ensures old(Valid()) ==> Valid()
    {
      if |messages| == 0 {
        messages := [welcome];
      }
    }

    /** `clearConversation`: only the welcome message remains. */
    method ClearConversation(welcome: CoachMessage)
      modifies this
      ensures messages == [welcome]
      ensures isLoading == old(isLoading) && dailyUsageCount == old(dailyUsageCount)
      ensures lastUsageDate == old(lastUsageDate) && isPremium == old(isPremium) && msgIdCounter == old(msgIdCounter)
      ensures old(Valid()) ==> Valid()
    {
      messages := [welcome];
    }

    /**
     * The synchronous part of `sendMessage` on day `today` at time `now`:
     * refused (nothing changes) when the quota is used up or a reply is
     * pending; otherwise counts the send for today, appends the user message
     * and waits for the reply.
     */
    method SendMessage(content: string, today: string, now: int) returns (accepted: bool)
      modifies this
      ensures accepted <==> old(CanSendMessage(today)) && !old(isLoading)
      ensures !accepted ==> (messages == old(messages) && isLoading == old(isLoading) && dailyUsageCount == old(dailyUsageCount)
                             && lastUsageDate == old(lastUsageDate) && msgIdCounter == old(msgIdCounter))
      ensures accepted ==> dailyUsageCount == (if old(lastUsageDate) == today then old(dailyUsageCount) + 1 else 1)
      ensures accepted ==> lastUsageDate == today && isLoading
      ensures accepted ==> (msgIdCounter == old(msgIdCounter) + 1
                            && messages == old(messages) + [CoachMessage(MessageId(now, msgIdCounter), User, content, now)])
      ensures accepted && !isPremium ==> RemainingMessages(today) == old(RemainingMessages(today)) - 1
      ensures isPremium == old(isPremium)
      ensures old(Valid()) ==> Valid()
    {
      if !CanSendMessage(today) {
        return false;
      }
      if isLoading {
        return false;
      }
      var newCount := if lastUsageDate == today then dailyUsageCount + 1 else 1;
      msgIdCounter := msgIdCounter + 1;
      var userMsg := CoachMessage(MessageId(now, msgIdCounter), User, content, now);
      messages := messages + [userMsg];
      isLoading := true;
      dailyUsageCount := newCount;
      lastUsageDate := today;
      return true;
    }

    /**
     * The completion of `sendMessage` at time `now`: the coach's reply, or
     * `None` when the request failed, becomes one assistant message, and the
     * store stops waiting.
     */
    method ReceiveReply(reply: Option<string>, now: int)
      modifies this
      ensures msgIdCounter == old(msgIdCounter) + 1
      ensures messages == old(messages) + [CoachMessage(MessageId(now, msgIdCounter), Assistant,
                                                        if reply.Some? then reply.value else ERROR_REPLY, now)]
      ensures !isLoading
      ensures dailyUsageCount == old(dailyUsageCount) && lastUsageDate == old(lastUsageDate) && isPremium == old(isPremium)
      ensures old(Valid()) ==> Valid()
    {
      msgIdCounter := msgIdCounter + 1;
      var content := if reply.Some? then reply.value else ERROR_REPLY;
      messages := messages + [CoachMessage(MessageId(now, msgIdCounter), Assistant, content, now)];
      isLoading := false;
    }
  }
}
