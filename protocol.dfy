/** Values exchanged between the game server and its clients: connection ids,
    card stat blocks and the outgoing socket messages, recorded as an event log. */
module Protocol {

  datatype Option<+T> = None | Some(value: T)

  /** A socket.io connection id; it is also the key of a player in the registry. */
  type ConnId = string

  /** One card as a client sends it in `joinQueue` (type and image are not modelled). */
  datatype Card = Card(name: string, hp: int, attack: int, defend: int, speed: int)

  /** `socket.emit` goes to one connection; `io.to(roomId).emit` goes to a room,
      whose id may be `null` (None). */
  datatype Recipient = ToConn(id: ConnId) | ToRoom(room: Option<string>)

  /** The outgoing messages, one constructor per event name. */
  datatype Msg =
    | CardLengthError(text: string)
    | Matched(text: string)
    | CardsInfo(cards: seq<Card>)
    | InitialStatus(enemy: string, enemyAtk: int, enemyHp: int, enemyDf: int, enemySpd: int)
    | CriticalMsg(text: string)
    | MissMsg(text: string)
    | NormalAttack(attacker: string, defender: string, damage: int)
    | UpdateStatus(self: string, enemy: string, selfHp: int, enemyHp: int)
    | UpdateResult(text: string)
    | MatchResult(text: string)
    | NextRound(wins: map<string, int>)
    | OpponentDisconnect  // sent under the name "oppnent_distconnect"

  datatype Event = Event(to: Recipient, msg: Msg)

  const CardLengthText := "you have to select three cards!"
  const MatchedText := "matching success! select card!"
  const CriticalText := "critical!"
  const MissText := "miss!"
}
