/** The diagnostic carried by `DtoMethodNotFoundException`, raised when a
    virtual call names neither a setter nor a getter. */
module DtoMethodNotFoundException {

  const Prefix: string := "Method "
  const Middle: string := " was not found on "
  const Suffix: string := " DTO."

  /** The exception's message for `method` called on an object of class
      `className` (`get_class` of the DTO). */
  function Message(name: string, className: string): (m: string)
    ensures |m| == 30 + |name| + |className|
    ensures m[..7] == "Method " && m[|m| - 5..] == " DTO."
    ensures m[7..7 + |name|] == name
    ensures m[|m| - 5 - |className|..|m| - 5] == className
  {
    Prefix + name + Middle + className + Suffix
  }

  /** Reads the method name back out of a message about class `className`:
      what lies between the fixed 7-character prefix and the class-dependent
      tail. */
  function MethodOf(message: string, className: string): string
    requires |message| >= 30 + |className|
  {
    message[7..|message| - 23 - |className|]
  }

  /** The message loses nothing about the method: for a known class it can be
      read back. */
  lemma MethodRecovered(name: string, className: string)
    ensures MethodOf(Message(name, className), className) == name
  {
    var m := Message(name, className);
    assert |m| - 23 - |className| == 7 + |name|;
  }

  /** Hence distinct methods on the same class give distinct messages. */
  lemma MessageInjective(name1: string, name2: string, className: string)
    requires Message(name1, className) == Message(name2, className)
    ensures name1 == name2
  {
    MethodRecovered(name1, className);
    MethodRecovered(name2, className);
  }
}
