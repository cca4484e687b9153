/** The keyboard tables of bindWASD: which command each key code emits
    when pressed and when released. */
module Input {
  import opened Geometry

  datatype Command = MoveForward | MoveLeft | MoveBackward | MoveRight | Jump

  /** One `controls.emit('command', name, flag)` call; `jump` is emitted without a flag. */
  datatype Emission = Emission(command: Command, flag: Option<bool>)

  /** The key codes bound to each command: the arrow keys and W, A, S, D, and the space bar. */
  function KeysFor(c: Command): set<int>
  {
    match c
    case MoveForward => {38, 87}
    case MoveLeft => {37, 65}
    case MoveBackward => {40, 83}
    case MoveRight => {39, 68}
    case Jump => {32}
  }

  /** The keydown handler. */
  function OnKeyDown(keyCode: int): (e: Option<Emission>)
    ensures e.Some? ==> keyCode in KeysFor(e.value.command)
    ensures e.Some? ==> (e.value.flag == None <==> e.value.command == Jump)
    ensures e.Some? && e.value.command != Jump ==> e.value.flag == Some(true)
  {
    match keyCode
    case 38 | 87 => Some(Emission(MoveForward, Some(true)))
    case 37 | 65 => Some(Emission(MoveLeft, Some(true)))
    case 40 | 83 => Some(Emission(MoveBackward, Some(true)))
    case 39 | 68 => Some(Emission(MoveRight, Some(true)))
    case 32 => Some(Emission(Jump, None))
    case _ => None
  }

  /** The keyup handler. */
  function OnKeyUp(keyCode: int): (e: Option<Emission>)
    ensures e.Some? ==> keyCode in KeysFor(e.value.command)
    ensures e.Some? ==> e.value.command != Jump && e.value.flag == Some(false)
  {
    match keyCode
    case 38 | 87 => Some(Emission(MoveForward, Some(false)))
    case 37 | 65 => Some(Emission(MoveLeft, Some(false)))
    case 40 | 83 => Some(Emission(MoveBackward, Some(false)))
    case 39 | 68 => Some(Emission(MoveRight, Some(false)))
    case _ => None
  }

  /** Every key bound to a command emits it on keydown, and no other key emits anything. */
  lemma KeyDownCoversTable(keyCode: int, c: Command)
    ensures keyCode in KeysFor(c) <==> OnKeyDown(keyCode).Some? && OnKeyDown(keyCode).value.command == c
  {
  }

  /** Releasing a key undoes exactly the movement its press started: the
      same command with the flag false; `jump` has no release. */
  lemma KeyUpReleasesKeyDown(keyCode: int)
    ensures OnKeyUp(keyCode) ==
      match OnKeyDown(keyCode)
      case Some(Emission(c, Some(true))) => Some(Emission(c, Some(false)))
      case _ => None
  {
  }
}
