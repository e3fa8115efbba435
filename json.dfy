/** What the program asks of `encoding/json` (cmd/awsenvsec/main.go, lines 96-99 and 134-143).
    JSON syntax itself (section 2 of RFC 8259) is not part of this model: a classifier is
    given as a parameter, and this module states what such a classifier must agree with. */
module Json {

  /** How `encoding/json` sees a secret's text:
      - NotJson: `isItJSON` fails;
      - JsonObject(fields): valid JSON whose root is an object; the top-level fields in the
        order a Go map range would visit them, values already turned into text;
      - JsonNonObject: valid JSON whose root is an array, a number, a string, a literal or
        null, so that unmarshalling it into a map adds no field (for null it succeeds and
        leaves the map nil; for the others it fails). */
  datatype JsonClass =
    | NotJson
    | JsonObject(fields: seq<(string, string)>)
    | JsonNonObject

  /** isItJSON: the text parses as some JSON value. */
  predicate IsItJson(c: JsonClass)
  {
    !c.NotJson?
  }

  const ObjectExample: string := "{\"mySecret\": \"myPassword\"}"

  /** The facts any faithful classifier must respect: the two cases of
      cmd/awsenvsec/main_test.go, and the empty text, which holds no JSON value. */
  predicate AgreesWithTests(classify: string -> JsonClass)
  {
    && classify("testString") == NotJson
    && classify(ObjectExample) == JsonObject([("mySecret", "myPassword")])
    && classify("") == NotJson
  }
}
