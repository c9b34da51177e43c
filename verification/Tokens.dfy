/** Token types and the two lexical tables of the Bantu language. */
module Tokens {
  import opened Decimals

  datatype TokenType =
    // literals
    | NumberT | StringT | TrueT | FalseT | NullT
    // identifiers
    | IdentifierT | DeclaratorT
    // operators
    | PlusT | MinusT | MultiplyT | DivideT | ModuloT
    | EqualsT | GreaterT | LessT | GreaterEqualT | LessEqualT | EqualToT | NotEqualToT
    | AndT | OrT | NotT | FatArrowT
    | PlusEqualsT | MinusEqualsT | MultiplyEqualsT | DivideEqualsT
    | IncrementT | DecrementT
    // delimiters
    | LParenT | RParenT | LBraceT | RBraceT | LBracketT | RBracketT
    | PipeT | CommaT | SemicolonT | DotT | ColonT
    // keywords
    | IfT | ElseT | WhileT | ForT | EachT | InT | DefT | ReturnT
    | PrintT | ReadT | DbT | FetchT | AwaitT
    | ConstT | PrivateT | PublicT | FromT | TryT | CatchT
    | BreakT | ContinueT | SwitchT | CaseT | DefaultT
    | NewT | CreateT | DeleteT | UpdateT | CalcT
    | ClassT | ExtendsT | ImplementsT | SuperT | ImportT | ExportT
    | TypeNumberT | TypeStringT | TypeBoolT | TypeListT | TypeDictT | TypeAnyT | TypeFuncT
    | ChannelT | SignalT | StunT | StreamT | BroadcastT | RelayT | ConnectT | PeerT
    | IceT | CandidateT | RoomT | OfferT | AnswerT
    // special
    | UnrecognizedT | EndOfFileT

  datatype Token = Token(kind: TokenType, value: string)

  /** The type of a word: its keyword, or an identifier. */
  function KeywordToTokenType(word: string): TokenType {
    if word == "if" then IfT
    else if word == "else" then ElseT
    else if word == "while" then WhileT
    else if word == "for" then ForT
    else if word == "each" then EachT
    else if word == "in" then InT
    else if word == "switch" then SwitchT
    else if word == "case" then CaseT
    else if word == "default" then DefaultT
    else if word == "break" then BreakT
    else if word == "continue" then ContinueT
    else if word == "def" then DefT
    else if word == "return" then ReturnT
    else if word == "print" then PrintT
    else if word == "read" then ReadT
    else if word == "db" then DbT
    else if word == "fetch" then FetchT
    else if word == "await" then AwaitT
    else if word == "const" then ConstT
    else if word == "private" then PrivateT
    else if word == "public" then PublicT
    else if word == "from" then FromT
    else if word == "try" then TryT
    else if word == "catch" then CatchT
    else if word == "new" then NewT
    else if word == "create" then CreateT
    else if word == "delete" then DeleteT
    else if word == "update" then UpdateT
    else if word == "calc" then CalcT
    else if word == "class" then ClassT
    else if word == "extends" then ExtendsT
    else if word == "implements" then ImplementsT
    else if word == "super" then SuperT
    else if word == "import" then ImportT
    else if word == "export" then ExportT
    else if word == "channel" then ChannelT
    else if word == "signal" then SignalT
    else if word == "stun" then StunT
    else if word == "stream" then StreamT
    else if word == "broadcast" then BroadcastT
    else if word == "relay" then RelayT
    else if word == "connect" then ConnectT
    else if word == "peer" then PeerT
    else if word == "ice" then IceT
    else if word == "candidate" then CandidateT
    else if word == "room" then RoomT
    else if word == "offer" then OfferT
    else if word == "answer" then AnswerT
    else if word == "true" then TrueT
    else if word == "false" then FalseT
    else if word == "null" then NullT
    else if word == "number" then TypeNumberT
    else if word == "string" then TypeStringT
    else if word == "bool" then TypeBoolT
    else if word == "list" then TypeListT
    else if word == "dict" then TypeDictT
    else if word == "any" then TypeAnyT
    else if word == "func" then TypeFuncT
    else IdentifierT
  }

  /** The type of a single-character token. */
  function CharToTokenType(c: char): TokenType {
    match c
    case '+' => PlusT
    case '-' => MinusT
    case '*' => MultiplyT
    case '/' => DivideT
    case '%' => ModuloT
    case '=' => EqualsT
    case '>' => GreaterT
    case '<' => LessT
    case '!' => NotT
    case '(' => LParenT
    case ')' => RParenT
    case '{' => LBraceT
    case '}' => RBraceT
    case '[' => LBracketT
    case ']' => RBracketT
    case ':' => ColonT
    case '|' => PipeT
    case ',' => CommaT
    case ';' => SemicolonT
    case '.' => DotT
    case _ => UnrecognizedT
  }

  /** The type of an operator of three characters. */
  function ThreeCharType(s: string): TokenType {
    if s == "===" then EqualToT
    else if s == "!==" then NotEqualToT
    else UnrecognizedT
  }

  /** The type of an operator of two characters. */
  function TwoCharType(s: string): TokenType {
    if s == "=>" then FatArrowT
    else if s == "==" then EqualToT
    else if s == "!=" then NotEqualToT
    else if s == ">=" then GreaterEqualT
    else if s == "<=" then LessEqualT
    else if s == "&&" then AndT
    else if s == "||" then OrT
    else if s == "+=" then PlusEqualsT
    else if s == "-=" then MinusEqualsT
    else if s == "*=" then MultiplyEqualsT
    else if s == "/=" then DivideEqualsT
    else if s == "++" then IncrementT
    else if s == "--" then DecrementT
    else UnrecognizedT
  }

  predicate IsAlpha(c: char) { 'a' <= c <= 'z' || 'A' <= c <= 'Z' }
  predicate IsWordStart(c: char) { IsAlpha(c) || c == '_' }
  predicate IsWordChar(c: char) { IsAlpha(c) || IsDigit(c) || c == '_' }

  /** `isspace` of the C locale: blank, tab, line feed, vertical tab, form feed, carriage return. */
  predicate IsSpace(c: char) { c == ' ' || '\t' <= c <= '\r' }

  /** A maximal word as `readIdentifier` collects it. */
  ghost predicate IsWord(s: string) {
    s != "" && IsWordStart(s[0]) && forall k :: 0 <= k < |s| ==> IsWordChar(s[k])
  }
}
