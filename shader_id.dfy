/** ShaderId: a shader property id together with the property name it was
    made from, when it was made from one. Shader.PropertyToID, the engine's
    name-to-id table, is passed in as a function. */
module ShaderIds {
  import opened Common
  import opened Numerals

  datatype ShaderId = ShaderId(id: int, propertyName: Option<string>)

  /** The id alone, or the id followed by a space and the quoted name. */
  function ToString(s: ShaderId): string
  {
    if s.propertyName.None? then IntToDecimal(s.id)
    else IntToDecimal(s.id) + " \"" + s.propertyName.value + "\""
  }

  /** The conversion to int: the id, whatever the name. */
  function ToInt(s: ShaderId): int
  {
    s.id
  }

  /** The conversion from an int: no name. */
  function FromInt(paramId: int): (s: ShaderId)
    ensures ToInt(s) == paramId && s.propertyName.None?
  {
    ShaderId(paramId, None)
  }

  /** The conversion from a name: the engine's id for it, and the name kept. */
  function FromString(paramName: string, propertyToId: string -> int): (s: ShaderId)
    ensures ToInt(s) == propertyToId(paramName) && s.propertyName == Some(paramName)
  {
    ShaderId(propertyToId(paramName), Some(paramName))
  }

  /** Reads ToString's text back: the id up to the first space, then a name
      between quotes. */
  function ParseShaderId(text: string): Option<ShaderId>
  {
    if ' ' !in text then
      match ParseInt(text)
      case Some(i) => Some(ShaderId(i, None))
      case None => None
    else
      var i := IndexOf(text, ' ');
      var rest := text[i + 1..];
      if |rest| >= 2 && rest[0] == '"' && rest[|rest| - 1] == '"' then
        match ParseInt(text[..i])
        case Some(v) => Some(ShaderId(v, Some(rest[1..|rest| - 1])))
        case None => None
      else None
  }

  /** ToString loses nothing: the id and the name, even one holding spaces
      or quotes, can be read back from the text. */
  lemma ToStringRoundTrip(s: ShaderId)
    ensures ParseShaderId(ToString(s)) == Some(s)
  {
    IntToDecimalRoundTrip(s.id);
    NoSeparatorInDecimal(s.id, ' ');
    if s.propertyName.Some? {
      var digits := IntToDecimal(s.id);
      var name := s.propertyName.value;
      assert ToString(s) == digits + [' '] + ("\"" + name + "\"");
      ParseNamed(digits, s.id, name);
    }
  }

  /** The named form read back, for any digits that parse to the id. */
  lemma ParseNamed(digits: string, id: int, name: string)
    requires ParseInt(digits) == Some(id) && ' ' !in digits
    ensures ParseShaderId(digits + [' '] + ("\"" + name + "\"")) == Some(ShaderId(id, Some(name)))
  {
    var quoted := "\"" + name + "\"";
    var text := digits + [' '] + quoted;
    IndexOfAfter(digits, ' ', quoted);
    assert text[..|digits|] == digits && text[|digits| + 1..] == quoted;
    assert quoted[1..|quoted| - 1] == name;
  }

  /** Hence two ids that print the same are the same id with the same name. */
  lemma ToStringInjective(a: ShaderId, b: ShaderId)
    ensures ToString(a) == ToString(b) ==> a == b
  {
    ToStringRoundTrip(a);
    ToStringRoundTrip(b);
  }
}
