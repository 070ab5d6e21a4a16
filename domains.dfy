/** Fully qualified domain names: the trailing dot that marks the root of the DNS
    tree (RFC 1034 section 3.1). */
module Domains {
  /** The name with a trailing dot; the empty name and a name that already has one
      are kept. */
  function ToFqdn(name: string): (r: string)
    ensures |name| == 0 ==> r == ""
    ensures |name| > 0 && name[|name| - 1] == '.' ==> r == name
    ensures |name| > 0 && name[|name| - 1] != '.' ==> r == name + "."
  {
    var n := |name|;
    if n == 0 || name[n - 1] == '.' then name else name + "."
  }

  /** The name without exactly one trailing dot, when it has one. */
  function UnFqdn(name: string): (r: string)
    ensures |name| > 0 && name[|name| - 1] == '.' ==> r == name[..|name| - 1]
    ensures (|name| == 0 || name[|name| - 1] != '.') ==> r == name
  {
    var n := |name|;
    if n != 0 && name[n - 1] == '.' then name[..n - 1] else name
  }

  /** Qualifying a qualified name changes nothing. */
  lemma ToFqdnIdempotent(name: string)
    ensures ToFqdn(ToFqdn(name)) == ToFqdn(name)
  {
    if |name| > 0 && name[|name| - 1] != '.' {
      assert (name + ".")[|name|] == '.';
    }
  }

  /** A name without a trailing dot comes back from its qualified form. */
  lemma UnFqdnOfToFqdn(name: string)
    requires |name| == 0 || name[|name| - 1] != '.'
    ensures UnFqdn(ToFqdn(name)) == name
  {
    if |name| > 0 {
      assert (name + ".")[..|name|] == name;
    }
  }

  /** A qualified non-empty name comes back from its unqualified form when that
      does not itself end in a dot. */
  lemma ToFqdnOfUnFqdn(name: string)
    requires |name| > 1 && name[|name| - 1] == '.' && name[|name| - 2] != '.'
    ensures ToFqdn(UnFqdn(name)) == name
  {
    assert name[..|name| - 1] + "." == name;
  }
}
