/**
 * The subject-code lookup `subjects[code] || 'General Inquiry'`, written out
 * identically in the browser script and in the serverless handler.
 */
module Subjects {

  /** The display text every unrecognised code falls back to. */
  const DefaultSubject := "General Inquiry"

  /** The four own properties of the `subjects` object literal. */
  const SubjectTable: map<string, string> := map[
    "general" := "General Inquiry",
    "services" := "Services Information",
    "partnership" := "Partnership Opportunity",
    "support" := "Technical Support"
  ]

  /**
   * The properties every plain object inherits from `Object.prototype`. Reading
   * one of them with `subjects[code]` yields a method (or, for `__proto__`,
   * the prototype object itself): never `undefined` and always truthy.
   */
  const InheritedKeys: set<string> := {
    "constructor", "hasOwnProperty", "isPrototypeOf", "propertyIsEnumerable",
    "toString", "toLocaleString", "valueOf", "__proto__",
    "__defineGetter__", "__defineSetter__", "__lookupGetter__", "__lookupSetter__"
  }

  /** What `subjects[code] || 'General Inquiry'` can give. */
  datatype Property =
    | Own(text: string)         // one of the table's display strings
    | Inherited(name: string)   // a truthy non-string value from the prototype chain

  /**
   * `subjects[code] || 'General Inquiry'` as written: the read walks the
   * prototype chain, so an inherited name yields that inherited value, and
   * every other code yields a display string of the table.
   */
  function SubjectTextAsWritten(code: string): (p: Property)
    ensures p.Inherited? <==> code in InheritedKeys
    ensures p.Inherited? ==> p.name == code
    ensures p.Own? ==> p.text in SubjectTable.Values
    ensures code in SubjectTable ==> p == Own(SubjectTable[code])
  {
    assert SubjectTable.Keys !! InheritedKeys;
    assert SubjectTable["general"] == DefaultSubject;
    if code in SubjectTable then Own(SubjectTable[code])
    else if code in InheritedKeys then Inherited(code)
    else Own(DefaultSubject)
  }

  /** A code the handler accepts ("constructor" is a non-empty string) escapes the default. */
  lemma InheritedCodeEscapesDefault()
    ensures SubjectTextAsWritten("constructor") == Inherited("constructor")
    ensures forall t :: SubjectTextAsWritten("constructor") != Own(t)
  {
    assert "constructor" !in SubjectTable;
  }

  /**
   * The lookup restricted to the table's own properties, which is what the
   * default evidently intends: the four fixed codes map to their display
   * text and every other string to "General Inquiry".
   */
  function SubjectText(code: string): (r: string)
    ensures r in SubjectTable.Values
    ensures code in SubjectTable ==> r == SubjectTable[code]
    ensures code !in SubjectTable ==> r == DefaultSubject
    ensures r != DefaultSubject <==> code in {"services", "partnership", "support"}
  {
    if code in SubjectTable then SubjectTable[code]
    else
      assert SubjectTable["general"] == DefaultSubject;
      DefaultSubject
  }

  /** The corrected lookup differs from the code as written only on the inherited property names. */
  lemma SubjectTextAgreesOffPrototype(code: string)
    ensures code !in InheritedKeys <==> SubjectTextAsWritten(code) == Own(SubjectText(code))
  {
    assert SubjectTable.Keys !! InheritedKeys;
  }
}
