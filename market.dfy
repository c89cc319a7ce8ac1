/** Market entities: the action and direction enumerations and the Position record. */
module Market {
  import opened Wrappers

  /** Trading decisions, with their enumeration values BUY=0, SELL=1, HOLD=2, CLOSE=3. */
  datatype Action = BUY | SELL | HOLD | CLOSE

  /** The integer value of an action. */
  function ActionValue(a: Action): (v: int)
    ensures 0 <= v < 4
    ensures (v == 0 <==> a == BUY) && (v == 1 <==> a == SELL)
    ensures (v == 2 <==> a == HOLD) && (v == 3 <==> a == CLOSE)
  {
    match a
    case BUY => 0
    case SELL => 1
    case HOLD => 2
    case CLOSE => 3
  }

  /** Enumeration lookup `Action(v)`: defined exactly for the four declared values. */
  function ActionOf(v: int): (r: Option<Action>)
    ensures r.Some? <==> 0 <= v < 4
    ensures r.Some? ==> ActionValue(r.value) == v
  {
    if v == 0 then Some(BUY)
    else if v == 1 then Some(SELL)
    else if v == 2 then Some(HOLD)
    else if v == 3 then Some(CLOSE)
    else None
  }

  /** Distinct actions have distinct values, and the lookup inverts the encoding. */
  lemma ActionEncoding(a: Action, b: Action)
    ensures ActionValue(a) == ActionValue(b) ==> a == b
    ensures ActionOf(ActionValue(a)) == Some(a)
  {
  }

  /** Position directions, with their enumeration values Short=0, Out=1, Long=2. */
  datatype Direction = Short | Out | Long

  /** The integer value of a direction, as the observation reports it. */
  function DirectionValue(d: Direction): (v: int)
    ensures 0 <= v < 3
    ensures (v == 0 <==> d == Short) && (v == 1 <==> d == Out) && (v == 2 <==> d == Long)
  {
    match d
    case Short => 0
    case Out => 1
    case Long => 2
  }

  /** Distinct directions have distinct values. */
  lemma DirectionEncoding(d: Direction, e: Direction)
    ensures DirectionValue(d) == DirectionValue(e) ==> d == e
  {
  }

  /** Python's `abs` on a quantity. */
  function Abs(x: real): (r: real)
    ensures 0.0 <= r
    ensures r == x || r == -x
  {
    if x < 0.0 then -x else x
  }

  /** A trading position; every field but the direction may be absent. */
  datatype Position = Position(
    symbol: Option<string>,
    entryPrice: Option<real>,
    qty: Option<real>,
    direction: Direction,
    stopLoss: Option<real>,
    positionId: Option<string>)

  /** The Position constructor: stores its arguments, the quantity as its absolute value. */
  function NewPosition(symbol: Option<string>, entryPrice: Option<real>, qty: Option<real>,
                       direction: Direction, stopLoss: Option<real>, positionId: Option<string>): (p: Position)
    ensures p.qty.Some? <==> qty.Some?
    ensures qty.Some? ==> 0.0 <= p.qty.value && (p.qty.value == qty.value || p.qty.value == -qty.value)
    ensures p.symbol == symbol && p.entryPrice == entryPrice && p.direction == direction
    ensures p.stopLoss == stopLoss && p.positionId == positionId
  {
    var q := if qty.Some? then Some(Abs(qty.value)) else None;
    Position(symbol, entryPrice, q, direction, stopLoss, positionId)
  }

  /** A Position built with every argument left at its default. */
  function DefaultPosition(): (p: Position)
    ensures p.direction == Out
    ensures p.symbol.None? && p.entryPrice.None? && p.qty.None? && p.stopLoss.None? && p.positionId.None?
  {
    NewPosition(None, None, None, Out, None, None)
  }
}
