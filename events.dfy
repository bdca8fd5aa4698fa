/** The server's per-tick event lists (`World.tickAttackEvents`, `tickSoundEvents`,
    `chatMessages`) and the records that go into them. Entities append to these lists
    while they update; the world sends and clears them once per tick. */
module Events {
  import opened Common

  /** `SoundEvent(soundName, isSfx, shouldInterrupt, entityID, isGlobal)`: a sound the
      clients play; a non-global one only for the entity it belongs to. */
  datatype SoundEvent = SoundEvent(soundName: string, isSfx: bool, shouldInterrupt: bool,
                                   entityID: string, isGlobal: bool)

  /** One successful hit, shown by the clients as an attack animation. */
  datatype AttackEvent = AttackEvent(attackerID: string, targetID: string)

  /** The text of a chat message. `LevelUp` stands for "Congratulations, your <skill> level
      is now <level>.", whose skill name comes from `SkillUtils`, which is not part of this
      model. */
  datatype ChatText = Plain(text: string) | LevelUp(skill: int, level: int)

  /** A chat line: its sender, text, send time in milliseconds and whether everyone sees
      it. */
  datatype ChatMessage = ChatMessage(senderName: string, text: ChatText, timeSent: int, isGlobal: bool)

  /** The contents of the three lists at one moment. */
  datatype Log = Log(attacks: seq<AttackEvent>, sounds: seq<SoundEvent>, chat: seq<ChatMessage>)

  /** The lists the entities of one world append to during a tick. */
  class TickEvents {
    var attackEvents: seq<AttackEvent>
    var soundEvents: seq<SoundEvent>
    var chatMessages: seq<ChatMessage>

    ghost function View(): Log
      reads this
    {
      Log(attackEvents, soundEvents, chatMessages)
    }

    constructor()
      ensures View() == Log([], [], [])
    {
      attackEvents := [];
      soundEvents := [];
      chatMessages := [];
    }

    method AddSound(e: SoundEvent)
      modifies this
      ensures View() == old(View()).(sounds := old(soundEvents) + [e])
    {
      soundEvents := soundEvents + [e];
    }

    method AddAttack(a: AttackEvent)
      modifies this
      ensures View() == old(View()).(attacks := old(attackEvents) + [a])
    {
      attackEvents := attackEvents + [a];
    }

    method AddChat(m: ChatMessage)
      modifies this
      ensures View() == old(View()).(chat := old(chatMessages) + [m])
    {
      chatMessages := chatMessages + [m];
    }
  }
}
