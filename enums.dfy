/** The closed-vocabulary validator: the `Skills` string enum, the `STATUS`
    object, the membership tests over their keys, the parse functions that
    return their input or `undefined`, and the print functions that log a
    value only when it parses. */
module Enums {
  import opened JsValues

  /** `enum Skills { Typescript = "Typescript", Java = "Java" }`: a string
      enum has no reverse mapping, so its own properties are exactly its
      members. */
  const Skills: Entries := [("Typescript", "Typescript"), ("Java", "Java")]

  /** `const STATUS = { LOADED: "loading", ERROR: "error", SUCCESS: "success" }`. */
  const STATUS: Entries := [("LOADED", "loading"), ("ERROR", "error"), ("SUCCESS", "success")]

  /** `isSkill`: is `v` one of the keys of `Skills`? */
  predicate IsSkill(v: Value)
    ensures IsSkill(v) <==> v == Str("Typescript") || v == Str("Java")
  {
    Includes(ObjectKeys(Skills), v)
  }

  /** `isStatus`: is `v` one of the keys of `STATUS` (not one of its values)? */
  predicate IsStatus(v: Value)
    ensures IsStatus(v) <==> v == Str("LOADED") || v == Str("ERROR") || v == Str("SUCCESS")
  {
    Includes(ObjectKeys(STATUS), v)
  }

  /** `parseSkill`: the input itself when it is a skill, `undefined` otherwise. */
  function ParseSkill(v: Value): (r: Value)
    ensures r != Undefined <==> v == Str("Typescript") || v == Str("Java")
    ensures r != Undefined ==> r == v
  {
    if IsSkill(v) then v else Undefined
  }

  /** `parseStatus`: the input itself when it is a status key, `undefined` otherwise. */
  function ParseStatus(v: Value): (r: Value)
    ensures r != Undefined <==> v == Str("LOADED") || v == Str("ERROR") || v == Str("SUCCESS")
    ensures r != Undefined ==> r == v
  {
    if IsStatus(v) then v else Undefined
  }

  /** Every value in `log` belongs to one of the two vocabularies. */
  predicate OnlyVocabulary(log: seq<Value>)
  {
    forall i :: 0 <= i < |log| ==> IsSkill(log[i]) || IsStatus(log[i])
  }

  /** `printSkills`: log the skill once if it parses, otherwise do nothing. */
  method PrintSkills(console: Console, skill: Value)
    modifies console
    ensures ParseSkill(skill) != Undefined ==> console.log == old(console.log) + [skill]
    ensures ParseSkill(skill) == Undefined ==> console.log == old(console.log)
    ensures OnlyVocabulary(old(console.log)) ==> OnlyVocabulary(console.log)
  {
    if Truthy(ParseSkill(skill)) {
      console.Log(skill);
    }
  }

  /** `printStatus`: log the status once if it parses, otherwise do nothing. */
  method PrintStatus(console: Console, status: Value)
    modifies console
    ensures ParseStatus(status) != Undefined ==> console.log == old(console.log) + [status]
    ensures ParseStatus(status) == Undefined ==> console.log == old(console.log)
    ensures OnlyVocabulary(old(console.log)) ==> OnlyVocabulary(console.log)
  {
    if Truthy(ParseStatus(status)) {
      console.Log(status);
    }
  }

  /** Both vocabularies have distinct, non-integer-like names, so the
      property model of `JsValues` describes them as JavaScript does. */
  lemma VocabulariesHaveOrdinaryNames()
    ensures OrdinaryNames(Skills) && OrdinaryNames(STATUS)
  {
  }

  /** For the string enum the keys are the values. */
  lemma SkillKeysAreValues(i: nat)
    requires i < |Skills|
    ensures ObjectKeys(Skills)[i] == Skills[i].1
  {
  }

  /** Looking a key of `STATUS` up yields a value that `parseStatus` rejects:
      `parseStatus(STATUS.LOADED)` is `undefined`, and so on. */
  lemma StatusValuesRejected(key: string)
    requires key in ObjectKeys(STATUS)
    ensures Get(STATUS, key) in [Str("loading"), Str("error"), Str("success")]
    ensures ParseStatus(Get(STATUS, key)) == Undefined
  {
  }

  /** Parsing the result of a parse again gives the same result. */
  lemma ParseIdempotent(v: Value)
    ensures ParseSkill(ParseSkill(v)) == ParseSkill(v)
    ensures ParseStatus(ParseStatus(v)) == ParseStatus(v)
  {
  }

  /** Every accepted value is a non-empty string, so the truthiness test in
      the print functions holds exactly when the parse succeeded. */
  lemma GateIsParse(v: Value)
    ensures Truthy(ParseSkill(v)) <==> ParseSkill(v) != Undefined
    ensures Truthy(ParseStatus(v)) <==> ParseStatus(v) != Undefined
  {
  }

  /** Matching is exact and case-sensitive, and the two vocabularies are disjoint. */
  lemma ExactMatch()
    ensures ParseSkill(Str("typescript")) == Undefined && ParseSkill(Str("TYPESCRIPT")) == Undefined
    ensures ParseStatus(Str("loaded")) == Undefined && ParseStatus(Str("Loaded")) == Undefined
    ensures ParseSkill(Str("")) == Undefined && ParseStatus(Str("")) == Undefined
    ensures forall v :: !(IsSkill(v) && IsStatus(v))
  {
  }
}
