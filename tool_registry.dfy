/**
 * The tool registry: a mutable map from tool name to handler, filled by
 * scanning a provider's declared methods for the @Tool annotation.
 * Reflection is abstracted into plain descriptors of the methods.
 */
module Registry {
  import opened Wrappers

  /** A java.lang.Class as the dispatcher uses it: decoding target and simple name. */
  datatype JavaClass = JavaClass(name: string, simpleName: string)

  /**
   * A java.lang.reflect.Method: its name, whether @Tool is present, its
   * parameter types (getParameterTypes(), whose length is getParameterCount())
   * and whether Method.invoke passes its access check.
   */
  datatype Method = Method(name: string, annotated: bool, parameterTypes: seq<JavaClass>, accessible: bool)

  /** A tool provider instance together with getClass().getDeclaredMethods(), in that order. */
  datatype Provider = Provider(instance: nat, declaredMethods: seq<Method>)

  /** ToolRegistry.ToolHandler: an immutable pair of the provider and one of its methods. */
  datatype ToolHandler = ToolHandler(provider: Provider, toolMethod: Method)

  predicate IsToolNamed(m: Method, name: string) {
    m.annotated && m.name == name
  }

  /** The names under which registering `methods` stores a handler. */
  function ToolNames(methods: seq<Method>): set<string> {
    set i | 0 <= i < |methods| && methods[i].annotated :: methods[i].name
  }

  /** The position of the last annotated method called `name`, if any. */
  function LastToolIndex(methods: seq<Method>, name: string): (r: Option<nat>)
    ensures r.Some? ==> r.value < |methods| && IsToolNamed(methods[r.value], name)
    ensures r.Some? ==> forall j :: r.value < j < |methods| ==> !IsToolNamed(methods[j], name)
    ensures r.None? <==> forall j :: 0 <= j < |methods| ==> !IsToolNamed(methods[j], name)
  {
    if methods == [] then None
    else if IsToolNamed(methods[|methods| - 1], name) then Some(|methods| - 1)
    else LastToolIndex(methods[..|methods| - 1], name)
  }

  /**
   * The map after the registration loop has visited `methods` in order,
   * starting from `tools`: each annotated method is put under its own name.
   */
  function Registration(tools: map<string, ToolHandler>, provider: Provider, methods: seq<Method>): (r: map<string, ToolHandler>)
    ensures tools.Keys <= r.Keys
    ensures forall name :: name in r ==>
              (name in tools && r[name] == tools[name]) ||
              (r[name].provider == provider && r[name].toolMethod in methods && IsToolNamed(r[name].toolMethod, name))
  {
    if methods == [] then tools
    else
      var before := Registration(tools, provider, methods[..|methods| - 1]);
      var m := methods[|methods| - 1];
      if m.annotated then before[m.name := ToolHandler(provider, m)] else before
  }

  /** The registry's invariant: every entry is an annotated method stored under its own name. */
  ghost predicate WellFormed(tools: map<string, ToolHandler>) {
    forall name :: name in tools ==> tools[name].toolMethod.annotated && tools[name].toolMethod.name == name
  }

  /**
   * What registration stores under each name: the handler of the LAST
   * annotated method of that name (last registration wins), and for every
   * other name the entry it had before.
   */
  lemma {:induction false} RegistrationLookup(tools: map<string, ToolHandler>, provider: Provider, methods: seq<Method>, name: string)
    ensures name in Registration(tools, provider, methods) <==> name in tools || LastToolIndex(methods, name).Some?
    ensures LastToolIndex(methods, name).Some? ==>
              Registration(tools, provider, methods)[name] == ToolHandler(provider, methods[LastToolIndex(methods, name).value])
    ensures LastToolIndex(methods, name).None? && name in tools ==>
              Registration(tools, provider, methods)[name] == tools[name]
  {
    if methods != [] {
      var init := methods[..|methods| - 1];
      RegistrationLookup(tools, provider, init, name);
      assert forall j :: 0 <= j < |init| ==> init[j] == methods[j];
    }
  }

  /** Registration adds exactly the names of the annotated methods. */
  lemma RegistrationKeys(tools: map<string, ToolHandler>, provider: Provider, methods: seq<Method>)
    ensures Registration(tools, provider, methods).Keys == tools.Keys + ToolNames(methods)
  {
    forall name ensures name in Registration(tools, provider, methods) <==> name in tools || name in ToolNames(methods) {
      RegistrationLookup(tools, provider, methods, name);
      if name in ToolNames(methods) {
        var i :| 0 <= i < |methods| && methods[i].annotated && methods[i].name == name;
        assert IsToolNamed(methods[i], name);
      }
    }
  }

  /** Registration keeps the registry's invariant. */
  lemma {:induction false} RegistrationPreservesWellFormed(tools: map<string, ToolHandler>, provider: Provider, methods: seq<Method>)
    requires WellFormed(tools)
    ensures WellFormed(Registration(tools, provider, methods))
  {
    if methods != [] {
      RegistrationPreservesWellFormed(tools, provider, methods[..|methods| - 1]);
    }
  }

  /**
   * Two providers exposing a tool of the same name: after both are
   * registered, the name resolves to the second provider's method.
   */
  lemma LaterProviderWins(tools: map<string, ToolHandler>, first: Provider, second: Provider, name: string)
    requires LastToolIndex(second.declaredMethods, name).Some?
    ensures var after := Registration(Registration(tools, first, first.declaredMethods), second, second.declaredMethods);
            name in after &&
            after[name] == ToolHandler(second, second.declaredMethods[LastToolIndex(second.declaredMethods, name).value])
  {
    RegistrationLookup(Registration(tools, first, first.declaredMethods), second, second.declaredMethods, name);
  }

  class ToolRegistry {
    var tools: map<string, ToolHandler>

    ghost predicate Valid()
      reads this
    {
      WellFormed(tools)
    }

    constructor ()
      ensures Valid() && tools == map[]
    {
      tools := map[];
    }

    /** registerToolProvider: puts every annotated declared method under its name. */
    method RegisterToolProvider(provider: Provider)
      requires Valid()
      modifies this
      ensures Valid()
      ensures tools == Registration(old(tools), provider, provider.declaredMethods)
    {
      var methods := provider.declaredMethods;
      for i := 0 to |methods|
        invariant tools == Registration(old(tools), provider, methods[..i])
      {
        assert methods[..i + 1][..i] == methods[..i];
        var m := methods[i];
        if m.annotated {
          tools := tools[m.name := ToolHandler(provider, m)];
        }
      }
      assert methods[..|methods|] == methods;
      RegistrationPreservesWellFormed(old(tools), provider, methods);
    }

    /** getToolHandler: the stored handler, or None (Java's null) when the name is absent. */
    function GetToolHandler(name: string): (h: Option<ToolHandler>)
      reads this
      ensures h.Some? <==> name in tools
      ensures h.Some? ==> h.value == tools[name]
      ensures Valid() && h.Some? ==> h.value.toolMethod.annotated && h.value.toolMethod.name == name
    {
      if name in tools then Some(tools[name]) else None
    }

    /** isRegistered: containsKey, which agrees with getToolHandler returning a handler. */
    function IsRegistered(name: string): (b: bool)
      reads this
      ensures b <==> GetToolHandler(name).Some?
    {
      name in tools
    }
  }
}
