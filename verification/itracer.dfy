/** The helpers shared by both tracer packages: the package-level prefix
    under which a span's signature is logged, the signed field list, and the
    caller's signature. */
module ITracer {
  import opened Prelude
  import opened Fields
  import Text

  /** The package-level state: the key that holds the signature. */
  datatype Globals = Globals(prefix: string)

  /** Before any registration the key is "function". */
  const InitialGlobals: Globals := Globals("function")

  /** `RegisterPrefix`: replaces the key; the lock only serialises writers. */
  function RegisterPrefix(g: Globals, custom: string): (r: Globals)
    ensures r.prefix == custom
  {
    g.(prefix := custom)
  }

  /** Registration overwrites: only the last prefix registered counts. */
  lemma RegisterPrefixLastWins(g: Globals, a: string, b: string)
    ensures RegisterPrefix(RegisterPrefix(g, a), b) == RegisterPrefix(g, b)
    ensures RegisterPrefix(RegisterPrefix(g, a), a) == RegisterPrefix(g, a)
  {
  }

  /** `SignedFields`: the signature under the current prefix, followed by the
      caller's fields in their order. */
  function SignedFields(g: Globals, signature: string, fs: seq<Field>): (r: seq<Field>)
    ensures |r| == |fs| + 1
    ensures r[0] == String(g.prefix, signature)
    ensures r[1..] == fs
    ensures FieldKeys(r) == [g.prefix] + FieldKeys(fs)
  {
    assert ([String(g.prefix, signature)] + fs)[1..] == fs;
    [String(g.prefix, signature)] + fs
  }

  /** The signature field is dropped from span attributes exactly when the
      prefix or the signature is empty. */
  lemma SignatureDroppedIff(g: Globals, signature: string, fs: seq<Field>)
    ensures Dropped(SignedFields(g, signature, fs)[0]) <==> g.prefix == "" || signature == ""
  {
  }

  /** `Signature`: the last path element of the fully qualified name of the
      function two frames up, or "" when the runtime cannot report it. The
      runtime's stack introspection is the parameter `caller`. */
  function Signature(caller: Option<string>): (r: string)
    ensures caller.None? ==> r == ""
    ensures caller.Some? ==> r != "" && r == Text.PathBase(caller.value)
    ensures caller.Some? && caller.value != "" && '/' !in caller.value ==> r == caller.value
  {
    match caller
    case None => ""
    case Some(name) =>
      assert name != "" && '/' !in name ==> Text.PathBase(name) == name by {
        if name != "" && '/' !in name {
          Text.PathBaseOfName(name);
        }
      }
      Text.PathBase(name)
  }

  /** A method's qualified name keeps the package name and the method: the
      import path before the last '/' goes. */
  lemma SignatureOfQualifiedName(importDir: string, name: string)
    requires name != "" && '/' !in name
    ensures Signature(Some(importDir + "/" + name)) == name
  {
    Text.PathBaseOfJoin(importDir, name);
  }

  /** The tracer test's own function, as the runtime names it. */
  lemma SignatureOfTestFunction()
    ensures Signature(Some("github.com/fredbi/go-trace/otel/tracer.TestSpanContent")) == "tracer.TestSpanContent"
  {
    var dir := "github.com/fredbi/go-trace/otel";
    var name := "tracer.TestSpanContent";
    assert dir + "/" + name == "github.com/fredbi/go-trace/otel/tracer.TestSpanContent";
    SignatureOfQualifiedName(dir, name);
  }
}
