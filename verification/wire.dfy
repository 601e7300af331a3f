/** The deserialised SOAP response, as the transport layer hands it over.

    A response is a schema-less tree: a node has named fields, and any field
    may be missing. Python attribute access on it is modelled here: `getattr`
    on a missing field, or on anything that is not a node, is absent. */
module Wire {
  import opened Results

  datatype Value =
    | Text(text: string)                  // a decoded string leaf
    | Flag(flag: bool)                    // a decoded boolean leaf
    | Node(fields: map<string, Value>)    // a complex element; only present fields are keys
    | Items(items: seq<Value>)            // a repeated element, decoded as a Python list

  /** The Python exceptions that the mapping layer lets escape to its caller. */
  datatype MappingError =
    | MissingAttribute(name: string)      // AttributeError from an unguarded attribute access
    | NotIterable                         // TypeError from iterating something that is not a sequence
    | NonStringText                       // TypeError: `__str__` returned something that is not a string
    | UnrenderedValue                     // "%s" of a list or a nested node, whose text is not modelled

  /** `getattr(v, name)`, with `None` standing for the AttributeError. */
  function GetAttr(v: Value, name: string): Option<Value>
  {
    if v.Node? && name in v.fields then Some(v.fields[name]) else None
  }

  /** `hasattr(v, name)`. */
  predicate HasAttr(v: Value, name: string)
  {
    v.Node? && name in v.fields
  }

  /** `getattr(getattr(v, outer), inner)`: absent when either level is. */
  function GetPath(v: Value, outer: string, inner: string): (r: Option<Value>)
    ensures r.Some? <==> HasAttr(v, outer) && HasAttr(v.fields[outer], inner)
    ensures r.Some? ==> r.value == v.fields[outer].fields[inner]
  {
    match GetAttr(v, outer)
    case None => None
    case Some(child) => GetAttr(child, inner)
  }

  /** An attribute access outside any `try`: a missing field raises. */
  function Require(v: Value, name: string): (r: Result<Value, MappingError>)
    ensures r.Success? <==> HasAttr(v, name)
    ensures r.Success? ==> r.value == v.fields[name]
    ensures r.Failure? ==> r.error == MissingAttribute(name)
  {
    if HasAttr(v, name) then Success(v.fields[name]) else Failure(MissingAttribute(name))
  }

  /** `for x in v`: a list yields its elements and a string its one-character
      strings; a boolean raises TypeError. Iterating a single node is reported
      as NotIterable as well. */
  function Iterate(v: Value): (r: Result<seq<Value>, MappingError>)
    ensures r.Success? <==> v.Items? || v.Text?
    ensures v.Items? ==> r == Success(v.items)
    ensures v.Text? ==> r.Success? && |r.value| == |v.text|
    ensures v.Text? ==> forall i :: 0 <= i < |v.text| ==> r.value[i] == Text([v.text[i]])
  {
    match v
    case Items(xs) => Success(xs)
    case Text(s) => Success(seq(|s|, i requires 0 <= i < |s| => Text([s[i]])))
    case _ => Failure(NotIterable)
  }

  /** Python truthiness of an attribute value (`if x:`). An empty suds object
      is falsy, like an empty list or string. */
  predicate Truthy(x: Option<Value>)
  {
    match x
    case None => false
    case Some(Text(s)) => |s| > 0
    case Some(Flag(b)) => b
    case Some(Node(fs)) => |fs| > 0
    case Some(Items(xs)) => |xs| > 0
  }

  /** The text `"%s" % x` produces for an attribute value. */
  function Display(x: Option<Value>): (r: Result<string, MappingError>)
    ensures x.None? ==> r == Success("None")
    ensures x.Some? && x.value.Text? ==> r == Success(x.value.text)
    ensures r.Success? <==> x.None? || x.value.Text? || x.value.Flag?
  {
    match x
    case None => Success("None")
    case Some(Text(s)) => Success(s)
    case Some(Flag(b)) => Success(if b then "True" else "False")
    case Some(_) => Failure(UnrenderedValue)
  }
}
