/**
 * The plain value types of the plugin: request headers, the HTTP verb
 * enumeration and the error record handed to failure listeners.
 */
module QuickHttpTypes {

  /** A signed 32-bit integer, the width of every counter and code in the plugin. */
  newtype int32 = x: int | -0x8000_0000 <= x < 0x8000_0000

  /** One request header: a (name, value) pair. Header lists are ordered and may repeat names. */
  datatype Header = Header(name: string, value: string)

  /** The five verbs the request node offers. */
  datatype HttpMethod = GET | POST | PUT | PATCH | DELETE_

  /** Every member of the enumeration, in declaration order. */
  const AllMethods: seq<HttpMethod> := [GET, POST, PUT, PATCH, DELETE_]

  /** The verb text sent on the wire; it is also each member's display name. */
  function VerbName(m: HttpMethod): (v: string)
    ensures |v| >= 3
    ensures v == "GET" <==> m == GET
    ensures m == DELETE_ ==> v == "DELETE"
  {
    match m
    case GET => "GET"
    case POST => "POST"
    case PUT => "PUT"
    case PATCH => "PATCH"
    case DELETE_ => "DELETE"
  }

  /** The enumeration has exactly five members, and distinct members send distinct verbs. */
  lemma MethodsAreFive()
    ensures |AllMethods| == 5
    ensures forall m: HttpMethod :: m in AllMethods
    ensures forall i, j :: 0 <= i < j < |AllMethods| ==> VerbName(AllMethods[i]) != VerbName(AllMethods[j])
  {
    forall m: HttpMethod ensures m in AllMethods {
      match m
      case GET => assert AllMethods[0] == m;
      case POST => assert AllMethods[1] == m;
      case PUT => assert AllMethods[2] == m;
      case PATCH => assert AllMethods[3] == m;
      case DELETE_ => assert AllMethods[4] == m;
    }
    assert VerbName(POST)[1] != VerbName(PUT)[1];
    assert VerbName(PUT)[0] != VerbName(PATCH)[1];
  }

  /** The error record passed to failure listeners. */
  datatype HttpError = HttpError(isError: bool, statusCode: int32, message: string, rawBody: string)

  /** A default-constructed error record: not an error, status 0, empty texts. */
  const DefaultError: HttpError := HttpError(false, 0, "", "")
}
