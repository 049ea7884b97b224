/** The argument validator of the `search_npm_packages` tool. */
module SearchArgs {
  import opened Json

  /** `typeof args === 'object' && args !== null && typeof args.query === 'string'`,
      evaluated left to right with short-circuit `&&`: the property access is
      only reached once `args` is known to be neither `undefined` nor `null`. */
  predicate IsValidSearchArgs(args: Slot)
    ensures IsValidSearchArgs(args) ==>
      args.Some? && args.value.JObject? && "query" in args.value.fields
      && args.value.fields["query"].JString?
  {
    TypeOf(args) == "object" && args != Some(JNull) && TypeOf(Member(args, "query")) == "string"
  }

  /** The arguments are valid exactly when they are a JSON object whose
      `query` field is a string; no other field is consulted. */
  lemma IsValidSearchArgsExactly(args: Slot)
    ensures IsValidSearchArgs(args) <==>
      args.Some? && args.value.JObject? && "query" in args.value.fields
      && args.value.fields["query"].JString?
  {
  }

  /** Adding, replacing or removing any field other than `query` does not
      change the verdict. */
  lemma ExtraFieldsIgnored(fields: map<string, Value>, key: string, v: Value)
    requires key != "query"
    ensures IsValidSearchArgs(Some(JObject(fields[key := v]))) == IsValidSearchArgs(Some(JObject(fields)))
    ensures IsValidSearchArgs(Some(JObject(fields - {key}))) == IsValidSearchArgs(Some(JObject(fields)))
  {
  }

  /** `args.query` of arguments that passed the validator. */
  function Query(args: Slot): (q: string)
    requires IsValidSearchArgs(args)
    ensures args.value.fields["query"] == JString(q)
  {
    Member(args, "query").value.s
  }
}
