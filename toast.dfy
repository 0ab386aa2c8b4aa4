/** Notifications: the toast record the store queues, the four toast kinds with the component's
    fall-back to "info", and the container's choice of which toasts are on screen. */
module Toasts {
  import opened Records

  const SUCCESS: string := "success"
  const ERROR: string := "error"
  const WARNING: string := "warning"
  const INFO: string := "info"

  /** How many of the most recent toasts the container shows. */
  const MAX_VISIBLE: nat := 3

  /** A queued notification; `id` stands for the uuid drawn when it is queued. */
  datatype Toast = Toast(id: nat, tipo: string, message: string)

  /** The four kinds a toast can be drawn as. */
  datatype Kind = Success | Error | Warning | Info

  /** The `type` string each kind is selected by. */
  function Name(k: Kind): string
  {
    match k
    case Success => SUCCESS
    case Error => ERROR
    case Warning => WARNING
    case Info => INFO
  }

  /** The kind the `Toast` component draws: the prop defaults to "info" when absent, and any string
      other than the first three falls to the "info" branch of both switches. */
  function KindOf(tipo: Option<string>): Kind
  {
    match tipo
    case None => Info
    case Some(t) =>
      if t == SUCCESS then Success
      else if t == ERROR then Error
      else if t == WARNING then Warning
      else Info
  }

  /** Each kind is selected by its own name. */
  lemma KindOfName(k: Kind)
    ensures KindOf(Some(Name(k))) == k
  {
  }

  /** An absent or unrecognised type is drawn as "info". */
  lemma UnknownIsInfo(t: string)
    requires t != SUCCESS && t != ERROR && t != WARNING
    ensures KindOf(Some(t)) == Info
    ensures KindOf(None) == Info
  {
  }

  /** Icon and colour classes of a toast (`getIcon`, `getToastClasses`). */
  datatype Style = Style(icon: string, palette: string)

  function StyleOf(k: Kind): (st: Style)
    ensures k == Info <==> st.icon == "Info"
  {
    match k
    case Success => Style("CheckCircle", "bg-green-50 border-green-200 text-green-800")
    case Error => Style("AlertCircle", "bg-red-50 border-red-200 text-red-800")
    case Warning => Style("AlertTriangle", "bg-yellow-50 border-yellow-200 text-yellow-800")
    case Info => Style("Info", "bg-blue-50 border-blue-200 text-blue-800")
  }

  /** The four kinds look different from one another. */
  lemma StylesDistinct(k1: Kind, k2: Kind)
    ensures StyleOf(k1) == StyleOf(k2) ==> k1 == k2
  {
  }

  /** `toasts.slice(-3)`: the last three toasts, or all of them when there are fewer. */
  function Visible(toasts: seq<Toast>): (v: seq<Toast>)
    ensures |v| <= MAX_VISIBLE
    ensures |v| == if |toasts| < MAX_VISIBLE then |toasts| else MAX_VISIBLE
    ensures v == toasts[|toasts| - |v|..]
    ensures |toasts| <= MAX_VISIBLE ==> v == toasts
  {
    if |toasts| <= MAX_VISIBLE then toasts else toasts[|toasts| - MAX_VISIBLE..]
  }
}
