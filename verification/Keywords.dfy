/** The keywords of the language, as the list from which the compiler is generated has them. */
module Keywords {

  predicate IsLetter(c: char) {
    'a' <= c <= 'z' || 'A' <= c <= 'Z'
  }

  const CONTROL_WORDS: seq<string> := [
    "fn", "op", "var", "auto", "return", "yield", "label", "while", "loop", "break", "continue", "if",
    "static_if", "enable_if", "if_coro_advance", "else", "move", "take", "byval", "tup"]

  const CLASS_WORDS: seq<string> := [
    "struct", "class", "final", "polymorph", "interface", "abstract", "non_sync", "ordered", "nodiscard",
    "nomangle", "call_conv", "virtual", "override", "pure", "generator", "async", "await", "namespace", "public",
    "private", "protected"]

  const INTEGER_TYPES: seq<string> := [
    "void", "bool", "i8", "u8", "i16", "u16", "i32", "u32", "i64", "u64", "i128", "u128", "i256", "u256", "i512",
    "u512", "i1024", "u1024", "i2048", "u2048", "i4096", "u4096"]

  const OTHER_TYPES: seq<string> := [
    "f16", "f32", "f80", "f64", "f128", "char8", "char16", "char32", "byte8", "byte16", "byte32", "byte64",
    "byte128", "byte256", "byte512", "byte1024", "byte2048", "byte4096", "size_type", "ssize_type"]

  const VALUE_WORDS: seq<string> := [
    "true", "false", "mut", "imut", "constexpr", "const", "zero_init", "uninitialized", "this", "base",
    "constructor", "destructor", "conversion_constructor", "static_assert", "halt", "safe", "unsafe", "type",
    "typeinfo", "same_type"]

  const OTHER_WORDS: seq<string> := [
    "typeof", "template", "enum", "cast_ref", "cast_ref_unsafe", "cast_imut", "cast_mut", "alloca", "as", "is",
    "import", "export", "embed", "default", "delete", "for", "with", "do", "switch", "case", "typename", "lambda",
    "static", "package", "module", "mixin", "thread_local"]

  const KEYWORDS: seq<string> := CONTROL_WORDS + CLASS_WORDS + INTEGER_TYPES + OTHER_TYPES + VALUE_WORDS + OTHER_WORDS

  /** A word that starts with a letter and does not end in an underscore. */
  predicate Plain(s: string) {
    s != "" && IsLetter(s[0]) && s[|s| - 1] != '_'
  }

  ghost predicate AllPlain(ws: seq<string>) {
    forall i :: 0 <= i < |ws| ==> Plain(ws[i])
  }

  lemma ControlWordsArePlain()
    ensures AllPlain(CONTROL_WORDS)
  {
  }

  lemma ClassWordsArePlain()
    ensures AllPlain(CLASS_WORDS)
  {
  }

  lemma IntegerTypesArePlain()
    ensures AllPlain(INTEGER_TYPES)
  {
  }

  lemma OtherTypesArePlain()
    ensures AllPlain(OTHER_TYPES)
  {
  }

  lemma ValueWordsArePlain()
    ensures AllPlain(VALUE_WORDS)
  {
  }

  lemma OtherWordsArePlain()
    ensures AllPlain(OTHER_WORDS)
  {
  }

  lemma PlainTogether(vs: seq<string>, ws: seq<string>)
    requires AllPlain(vs) && AllPlain(ws)
    ensures AllPlain(vs + ws)
  {
  }

  lemma KeywordsArePlain()
    ensures forall k :: k in KEYWORDS ==> Plain(k)
  {
    hide AllPlain;
    ControlWordsArePlain();
    ClassWordsArePlain();
    PlainTogether(CONTROL_WORDS, CLASS_WORDS);
    IntegerTypesArePlain();
    PlainTogether(CONTROL_WORDS + CLASS_WORDS, INTEGER_TYPES);
    OtherTypesArePlain();
    PlainTogether(CONTROL_WORDS + CLASS_WORDS + INTEGER_TYPES, OTHER_TYPES);
    ValueWordsArePlain();
    PlainTogether(CONTROL_WORDS + CLASS_WORDS + INTEGER_TYPES + OTHER_TYPES, VALUE_WORDS);
    OtherWordsArePlain();
    PlainTogether(CONTROL_WORDS + CLASS_WORDS + INTEGER_TYPES + OTHER_TYPES + VALUE_WORDS, OTHER_WORDS);
    EachPlain(KEYWORDS);
  }

  lemma EachPlain(ws: seq<string>)
    requires AllPlain(ws)
    ensures forall k :: k in ws ==> Plain(k)
  {
  }
}
