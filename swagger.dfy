/**
 The two reference forms of a Swagger 2.0 document that the parameter
 generator writes: `#/parameters/<name>`, which points into the document's
 Parameters Definitions Object, and `#/definitions/<name>`, which points into
 its Definitions Object.
 */
module Swagger {

  datatype Option<+T> = None | Some(value: T)

  const PARAMETERS_PREFIX := "#/parameters/"
  const DEFINITIONS_PREFIX := "#/definitions/"

  /** The rest of `s` after `prefix`, if `s` starts with `prefix`. */
  function StripPrefix(prefix: string, s: string): Option<string>
  {
    if |prefix| <= |s| && s[..|prefix|] == prefix then Some(s[|prefix|..]) else None
  }

  /** The catalog name a `#/parameters/<name>` reference points at. */
  function ParameterName(ref: string): Option<string>
  {
    StripPrefix(PARAMETERS_PREFIX, ref)
  }

  /** The definition name a `#/definitions/<name>` schema reference points at. */
  function DefinitionName(ref: string): Option<string>
  {
    StripPrefix(DEFINITIONS_PREFIX, ref)
  }

  /** Stripping a prefix undoes prepending it. */
  lemma StripPrefixOfConcat(prefix: string, rest: string)
    ensures StripPrefix(prefix, prefix + rest) == Some(rest)
  {
    assert (prefix + rest)[..|prefix|] == prefix;
    assert (prefix + rest)[|prefix|..] == rest;
  }

  /** Whatever a prefix is stripped from is that prefix followed by the rest. */
  lemma StripPrefixSplits(prefix: string, s: string)
    requires StripPrefix(prefix, s).Some?
    ensures s == prefix + StripPrefix(prefix, s).value
  {
    assert s == s[..|prefix|] + s[|prefix|..];
  }
}
