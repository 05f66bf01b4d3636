/**
 * The value types of the voice concierge (types.ts): transcript messages,
 * consultation details, the conversation language and the connection status,
 * together with the string values the TypeScript unions and enum carry.
 */
module Types {

  datatype Option<+T> = None | Some(value: T)

  /** What JavaScript produces when a possibly `undefined` string is
      concatenated with `+=` or interpolated in a template literal. */
  function Show(s: Option<string>): string
  {
    match s
    case Some(v) => v
    case None => "undefined"
  }

  /** The author of a transcript entry: 'user' | 'assistant'. */
  datatype Role = User | Assistant

  function RoleName(r: Role): string
  {
    match r
    case User => "user"
    case Assistant => "assistant"
  }

  /** Reads a role back from its string value; exactly the two literals of the union are roles. */
  function ParseRole(t: string): (r: Option<Role>)
    ensures r.Some? <==> t == "user" || t == "assistant"
    ensures r.Some? ==> RoleName(r.value) == t
  {
    if t == "user" then Some(User)
    else if t == "assistant" then Some(Assistant)
    else None
  }

  lemma RoleNameRoundTrip(r: Role)
    ensures ParseRole(RoleName(r)) == Some(r)
  {
    match r
    case User =>
    case Assistant =>
  }

  /** One transcript entry; `timestamp` is a Date.now() reading in milliseconds. */
  datatype Message = Message(role: Role, text: string, timestamp: int)

  /** The consultation details captured by the tool call. The application
      keeps them as a Partial record, so every field may be absent. */
  datatype ConsultationDetails = ConsultationDetails(
    name: Option<string>,
    phone: Option<string>,
    email: Option<string>,
    legalIssue: Option<string>,
    preferredDate: Option<string>)

  /** 'English' | 'Spanish' | 'Mandarin Chinese' */
  datatype Language = English | Spanish | MandarinChinese

  function LanguageName(l: Language): string
  {
    match l
    case English => "English"
    case Spanish => "Spanish"
    case MandarinChinese => "Mandarin Chinese"
  }

  function ParseLanguage(t: string): (r: Option<Language>)
    ensures r.Some? <==> t == "English" || t == "Spanish" || t == "Mandarin Chinese"
    ensures r.Some? ==> LanguageName(r.value) == t
  {
    if t == "English" then Some(English)
    else if t == "Spanish" then Some(Spanish)
    else if t == "Mandarin Chinese" then Some(MandarinChinese)
    else None
  }

  lemma LanguageNameRoundTrip(l: Language)
    ensures ParseLanguage(LanguageName(l)) == Some(l)
  {
    match l
    case English =>
    case Spanish =>
    case MandarinChinese =>
  }

  /** The four states of the connection, with the enum's string values. */
  datatype ConnectionStatus = Idle | Connecting | Connected | Error

  function StatusName(s: ConnectionStatus): string
  {
    match s
    case Idle => "IDLE"
    case Connecting => "CONNECTING"
    case Connected => "CONNECTED"
    case Error => "ERROR"
  }

  function ParseStatus(t: string): (r: Option<ConnectionStatus>)
    ensures r.Some? <==> t == "IDLE" || t == "CONNECTING" || t == "CONNECTED" || t == "ERROR"
    ensures r.Some? ==> StatusName(r.value) == t
  {
    if t == "IDLE" then Some(Idle)
    else if t == "CONNECTING" then Some(Connecting)
    else if t == "CONNECTED" then Some(Connected)
    else if t == "ERROR" then Some(Error)
    else None
  }

  lemma StatusNameRoundTrip(s: ConnectionStatus)
    ensures ParseStatus(StatusName(s)) == Some(s)
  {
    match s
    case Idle =>
    case Connecting =>
    case Connected =>
    case Error =>
  }
}
