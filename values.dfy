/**
 Values shared by the two controller actions: an optional value, the JSON
 values the feed registry stores in its JSON columns, and ActiveSupport's
 (Rails') notion of a blank value, which `present?` negates.
 */
module Values {

  datatype Option<+T> = None | Some(value: T)

  /** A JSON document as the database hands it to the controller. */
  datatype Json =
    | JNull
    | JBool(b: bool)
    | JNumber(n: int)
    | JString(s: string)
    | JArray(items: seq<Json>)
    | JObject(members: map<string, Json>)

  /**
   The characters of `[[:space:]]` on a UTF-8 string: the Unicode
   White_Space code points.
   */
  predicate IsSpace(c: char)
  {
    ('\U{09}' <= c <= '\U{0D}') || c == ' ' || c == '\U{85}' || c == '\U{A0}' || c == '\U{1680}' ||
    ('\U{2000}' <= c <= '\U{200A}') || c == '\U{2028}' || c == '\U{2029}' || c == '\U{202F}' ||
    c == '\U{205F}' || c == '\U{3000}'
  }

  /** ActiveSupport's `blank?`: nil, false, an all-whitespace string, an empty array or hash. */
  predicate Blank(j: Json)
  {
    match j
    case JNull => true
    case JBool(b) => !b
    case JNumber(_) => false
    case JString(s) => forall i :: 0 <= i < |s| ==> IsSpace(s[i])
    case JArray(items) => items == []
    case JObject(members) => members == map[]
  }

  /** ActiveSupport's `present?`, the negation of `blank?`. */
  predicate Present(j: Json)
  {
    !Blank(j)
  }

  /**
   A string of Unicode spaces alone, such as a no-break space or an
   ideographic space, is blank; a string with any other character is present.
   */
  lemma UnicodeSpacesAreBlank()
    ensures !Present(JString("\U{A0}")) && !Present(JString("\t\U{3000}\U{2028}"))
    ensures Present(JString(" a "))
  {
    assert !IsSpace(" a "[1]);
  }
}
