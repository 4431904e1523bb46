/** Null-terminated byte strings, as the serial drivers walk them. */
module CStrings {

  /** The bytes a `while( *p ) { ...; p++; }` loop visits: everything before the first NUL. */
  function BeforeNul(s: seq<bv8>): (r: seq<bv8>)
    ensures r <= s
    ensures 0 !in r
    ensures |r| < |s| ==> s[|r|] == 0
    ensures 0 in s ==> |r| < |s|
  {
    if s == [] || s[0] == 0 then [] else [s[0]] + BeforeNul(s[1..])
  }
}
