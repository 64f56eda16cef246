/** Usage records as the runtime writes them, and text as JavaScript trims it. */
module AiRecords {
  import opened Common

  const MAX_IDENTIFIER_LENGTH := 200

  predicate White(c: char) {
    c in {' ', '\t', '\n', '\r', '\U{000B}', '\U{000C}', '\U{00A0}', '\U{FEFF}', '\U{1680}', '\U{2028}', '\U{2029}',
          '\U{202F}', '\U{205F}', '\U{3000}'}
    || '\U{2000}' <= c <= '\U{200A}'
  }

  /** The text is empty once trimmed. */
  predicate Blank(s: string) {
    forall c :: c in s ==> White(c)
  }

  predicate BoundedIdentifier(s: string) {
    !Blank(s) && |s| <= MAX_IDENTIFIER_LENGTH
  }

  datatype Status = Succeeded | Failed | Rejected
  datatype Usage = Usage(input: int, output: int, total: int)
  const NO_USAGE := Usage(0, 0, 0)

  datatype Record = Record(
    requestId: string, userId: string, feature: string, providerId: string, modelId: string,
    attempts: int, status: Status, usage: Usage, cost: Option<real>, errorCode: Option<string>)
}
