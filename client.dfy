/**
 * Client and Client.Builder of the flow model: the builder collects a client's label,
 * kind, source range, scope, value and flags, and `build` hands out a Client record
 * and returns the builder to its initial state.
 */
module ClientModel {
  import opened Wrappers

  datatype ClientKind = Http | Other

  datatype ClientScope = Local | Object | Global

  /** A source range: file name, start line and offset, end line and offset. */
  datatype LineRange = LineRange(fileName: string, startLine: nat, startOffset: nat, endLine: nat, endOffset: nat)

  /**
   * The Client record. `title` is the record's label; a Java null range or value is
   * None; `flags` is the Java int, a 32-bit vector.
   */
  datatype Client = Client(id: string, title: string, kind: ClientKind, lineRange: Option<LineRange>,
                           scope: ClientScope, value: Option<string>, flags: bv32)

  /** The label of a client that is not an HTTP client. */
  const OTHER_CLIENT := "Client"

  /** The type name and label of ExpressionAttributes.HTTP_CLIENT (stand-in values). */
  const HTTP_CLIENT_TYPE := "http:Client"
  const HTTP_CLIENT_LABEL := "HTTP Client"

  /** The client a builder in its initial state builds: an OTHER client labelled "Client", GLOBAL, no range, no value, no flags. */
  function InitialClient(idOf: Option<LineRange> -> string): Client {
    Client(idOf(None), OTHER_CLIENT, Other, None, Global, None, 0)
  }

  /**
   * The flags after flag(f) are `flags | f` (Builder.Flag): every bit of `f` becomes set and
   * every bit already set stays set.
   */
  lemma FlagSetsBits(flags: bv32, f: bv32)
    ensures (flags | f) & f == f && (flags | f) & flags == flags
  {
  }

  /** flag(f) sets no bit that was neither set before nor set in `f`. */
  lemma FlagSetsNothingElse(flags: bv32, f: bv32)
    ensures (flags | f) & !flags & !f == 0
  {
  }

  /** Raising flags that are already set changes nothing; in particular raising the same flag twice is raising it once. */
  lemma FlagIdempotent(flags: bv32, f: bv32)
    requires flags & f == f
    ensures flags | f == flags
  {
  }

  class Builder {
    var title: string
    var kind: ClientKind
    var lineRange: Option<LineRange>
    var scope: ClientScope
    var value: Option<string>
    var flags: bv32

    /** The state of a freshly constructed builder. */
    predicate IsInitial()
      reads this
    {
      && title == OTHER_CLIENT && kind == Other && lineRange == None
      && scope == Global && value == None && flags == 0
    }

    /** A new builder: kind OTHER, label "Client", scope GLOBAL, no range, no value, no flags. */
    constructor ()
      ensures IsInitial()
    {
      kind := Other;
      title := OTHER_CLIENT;
      scope := Global;
      lineRange := None;
      value := None;
      flags := 0;
    }

    /** setTypedBindingPattern: the binding pattern's range and text become the range and the value. */
    method SetTypedBindingPattern(range: LineRange, bindingPattern: string)
      modifies this
      ensures lineRange == Some(range) && value == Some(bindingPattern)
      ensures title == old(title) && kind == old(kind) && scope == old(scope) && flags == old(flags)
    {
      lineRange := Some(range);
      value := Some(bindingPattern);
    }

    /** setVariableSymbol: a present location replaces the range, a present name the value; absent parts change nothing. */
    method SetVariableSymbol(location: Option<LineRange>, name: Option<string>)
      modifies this
      ensures location.Some? ==> lineRange == location
      ensures location.None? ==> lineRange == old(lineRange)
      ensures name.Some? ==> value == name
      ensures name.None? ==> value == old(value)
      ensures title == old(title) && kind == old(kind) && scope == old(scope) && flags == old(flags)
    {
      if location.Some? {
        lineRange := location;
      }
      if name.Some? {
        value := name;
      }
    }

    /** setKind: only the HTTP client type makes the client an HTTP client with the HTTP label. */
    method SetKind(typeName: string)
      modifies this
      ensures typeName == HTTP_CLIENT_TYPE ==> kind == Http && title == HTTP_CLIENT_LABEL
      ensures typeName != HTTP_CLIENT_TYPE ==> kind == old(kind) && title == old(title)
      ensures lineRange == old(lineRange) && scope == old(scope) && value == old(value) && flags == old(flags)
    {
      if typeName == HTTP_CLIENT_TYPE {
        kind := Http;
        title := HTTP_CLIENT_LABEL;
      }
    }

    /** setScope changes the scope and nothing else. */
    method SetScope(newScope: ClientScope)
      modifies this
      ensures scope == newScope
      ensures title == old(title) && kind == old(kind) && lineRange == old(lineRange)
      ensures value == old(value) && flags == old(flags)
    {
      scope := newScope;
    }

    /** flag: or-s `f` into the flags and changes nothing else (see FlagSetsBits, FlagSetsNothingElse, FlagIdempotent). */
    method Flag(f: bv32)
      modifies this
      ensures flags == old(flags) | f
      ensures title == old(title) && kind == old(kind) && lineRange == old(lineRange)
      ensures scope == old(scope) && value == old(value)
    {
      flags := flags | f;
    }

    /**
     * build: the Client carries the builder's current state, with the id derived from
     * the range by `idOf` (the decimal string of Objects.hash(lineRange)); afterwards
     * the builder is in its initial state again.
     */
    method Build(idOf: Option<LineRange> -> string) returns (client: Client)
      modifies this
      ensures client == Client(idOf(old(lineRange)), old(title), old(kind), old(lineRange),
                               old(scope), old(value), old(flags))
      ensures old(IsInitial()) ==> client == InitialClient(idOf)
      ensures IsInitial()
    {
      client := Client(idOf(lineRange), title, kind, lineRange, scope, value, flags);
      title := OTHER_CLIENT;
      kind := Other;
      lineRange := None;
      scope := Global;
      value := None;
      flags := 0;
    }
  }
}
