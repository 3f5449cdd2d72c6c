/** The library's exceptions and the registry that maps a service result
    code to the exception class raised for it. The registry is built at
    import time by a loop over the module's own namespace, which picks out
    every proper subclass of GrouperAPIException. */
module Exceptions {
  import opened Common

  /** The exception classes the module declares. */
  datatype ExceptionClass = GrouperException | GrouperAPIException | ProblemSavingStems

  /** `issubclass(c, d)` among the declared classes. */
  predicate IsSubclass(c: ExceptionClass, d: ExceptionClass)
  {
    c == d
    || (c == GrouperAPIException && d == GrouperException)
    || (c == ProblemSavingStems && (d == GrouperAPIException || d == GrouperException))
  }

  /** The class attribute `result_code`, where the class defines one. */
  function ResultCode(c: ExceptionClass): Option<string>
  {
    if c == ProblemSavingStems then Some("PROBLEM_SAVING_STEMS") else None
  }

  /** An exception raised for a service-reported failure: its class, its
      message, and the request and response it concerned. */
  datatype APIException<T> = APIException(cls: ExceptionClass, message: string, input: T, output: T)

  /** `GrouperAPIException(message, input, output)` and its subclasses:
      the exception keeps all three, and is a GrouperException. */
  function NewAPIException<T>(cls: ExceptionClass, message: string, input: T, output: T): (e: APIException<T>)
    requires IsSubclass(cls, GrouperAPIException)
    ensures e.cls == cls && e.message == message && e.input == input && e.output == output
    ensures IsSubclass(e.cls, GrouperException)
  {
    APIException(cls, message, input, output)
  }

  /** A value in the module's namespace: one of its classes, or anything
      else (module attributes, the registry dict itself). */
  datatype NamespaceValue = Class(cls: ExceptionClass) | NonClass

  /** The loop's test: a class, a subclass of GrouperAPIException, and not
      GrouperAPIException itself. */
  predicate IsRegistered(v: NamespaceValue)
  {
    v.Class? && IsSubclass(v.cls, GrouperAPIException) && v.cls != GrouperAPIException
  }

  /** Every class the loop registers defines a result code. */
  lemma RegisteredHasResultCode(v: NamespaceValue)
    requires IsRegistered(v)
    ensures ResultCode(v.cls).Some?
  {
  }

  /** The registry after inserting the entries of `values` in order; a
      later class with the same code replaces an earlier one. */
  function RegistryOf(values: seq<NamespaceValue>): map<string, ExceptionClass>
  {
    if values == [] then map[]
    else
      var v := values[|values| - 1];
      var before := RegistryOf(values[..|values| - 1]);
      if IsRegistered(v) then
        RegisteredHasResultCode(v);
        before[ResultCode(v.cls).value := v.cls]
      else before
  }

  /** The namespace `dict(locals())` captures, in insertion order: the
      eight module attributes Python defines, the three classes, and the
      `api_exceptions` dict. */
  const ModuleNamespace: seq<NamespaceValue> :=
    [NonClass, NonClass, NonClass, NonClass, NonClass, NonClass, NonClass, NonClass,
     Class(GrouperException), Class(GrouperAPIException), Class(ProblemSavingStems),
     NonClass]

  /** The registry loop: for every value in the namespace that is a proper
      subclass of GrouperAPIException, map its result code to it. */
  method BuildRegistry(values: seq<NamespaceValue>) returns (registry: map<string, ExceptionClass>)
    ensures registry == RegistryOf(values)
    ensures forall code :: code in registry ==>
      IsRegistered(Class(registry[code])) && ResultCode(registry[code]) == Some(code)
  {
    registry := map[];
    for i := 0 to |values|
      invariant registry == RegistryOf(values[..i])
    {
      var v := values[i];
      assert values[..i + 1][..i] == values[..i];
      if IsRegistered(v) {
        RegisteredHasResultCode(v);
        registry := registry[ResultCode(v.cls).value := v.cls];
      }
    }
    assert values[..|values|] == values;
    RegistryEntriesKeyedByCode(values);
  }

  /** Every registry entry is a registered class, keyed by its own result code. */
  lemma {:induction false} RegistryEntriesKeyedByCode(values: seq<NamespaceValue>)
    ensures forall code :: code in RegistryOf(values) ==>
      IsRegistered(Class(RegistryOf(values)[code])) && ResultCode(RegistryOf(values)[code]) == Some(code)
  {
    if values != [] {
      RegistryEntriesKeyedByCode(values[..|values| - 1]);
    }
  }

  /** A code is in the registry exactly when some registered class in the
      namespace has it as its result code. */
  lemma {:induction false} RegistryKeys(values: seq<NamespaceValue>, code: string)
    ensures code in RegistryOf(values) <==>
      exists i :: 0 <= i < |values| && IsRegistered(values[i]) && ResultCode(values[i].cls) == Some(code)
  {
    if values != [] {
      var init := values[..|values| - 1];
      RegistryKeys(init, code);
      if exists i :: 0 <= i < |init| && IsRegistered(init[i]) && ResultCode(init[i].cls) == Some(code) {
        var i :| 0 <= i < |init| && IsRegistered(init[i]) && ResultCode(init[i].cls) == Some(code);
        assert values[i] == init[i];
      }
      if exists i :: 0 <= i < |values| && IsRegistered(values[i]) && ResultCode(values[i].cls) == Some(code) {
        var i :| 0 <= i < |values| && IsRegistered(values[i]) && ResultCode(values[i].cls) == Some(code);
        if i < |init| {
          assert init[i] == values[i];
        }
      }
    }
  }

  /** Neither GrouperAPIException nor GrouperException is ever a registry
      value, whatever the namespace holds. */
  lemma BaseClassesNeverRegistered(values: seq<NamespaceValue>, code: string)
    requires code in RegistryOf(values)
    ensures RegistryOf(values)[code] != GrouperAPIException
    ensures RegistryOf(values)[code] != GrouperException
  {
    RegistryEntriesKeyedByCode(values);
  }

  /** The module's registry holds exactly one entry:
      `PROBLEM_SAVING_STEMS` maps to ProblemSavingStems. */
  lemma ModuleRegistry()
    ensures RegistryOf(ModuleNamespace) == map["PROBLEM_SAVING_STEMS" := ProblemSavingStems]
  {
    var ns := ModuleNamespace;
    EmptyBeforeProblemSavingStems(10);
    assert ns[..11][..10] == ns[..10];
    assert ns[..12][..11] == ns[..11];
    assert ns[..12] == ns;
  }

  /** No value before ProblemSavingStems in the namespace is registered. */
  lemma {:induction false} EmptyBeforeProblemSavingStems(k: nat)
    requires k <= 10
    ensures RegistryOf(ModuleNamespace[..k]) == map[]
  {
    if k > 0 {
      assert ModuleNamespace[..k][..k - 1] == ModuleNamespace[..k - 1];
      EmptyBeforeProblemSavingStems(k - 1);
    }
  }

  /** Looking up any code other than `PROBLEM_SAVING_STEMS` finds nothing. */
  lemma ModuleRegistryLookup(code: string)
    ensures code in RegistryOf(ModuleNamespace) <==> code == "PROBLEM_SAVING_STEMS"
  {
    ModuleRegistry();
  }
}
