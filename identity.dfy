/** The installation identity (`OpenraspAgentManager::calculate_rasp_id`): the md5
    digest of every hardware address, in the order they were found, followed by
    the install root directory. The digest itself is a parameter: the model
    relies only on it being a function of its input. */
module Identity {
  import opened Common

  /** The addresses joined with no separator, first address first. */
  function Concat(parts: seq<string>): string {
    if parts == [] then "" else parts[0] + Concat(parts[1..])
  }

  /** Appending one more address appends its text at the end of the buffer. */
  lemma {:induction false} ConcatSnoc(parts: seq<string>, last: string)
    ensures Concat(parts + [last]) == Concat(parts) + last
  {
    if parts == [] {
      assert parts + [last] == [last];
    } else {
      assert (parts + [last])[1..] == parts[1..] + [last];
      ConcatSnoc(parts[1..], last);
    }
  }

  /** The identity, or `None` when no hardware address was found. */
  function RaspId(hwAddrs: seq<string>, rootDir: string, md5: string -> string): (r: Option<string>)
    ensures r.None? <==> hwAddrs == []
  {
    if hwAddrs == [] then None else Some(md5(Concat(hwAddrs) + rootDir))
  }

  /** The identity does not depend on how the bytes are split into addresses, and
      two installations that produce the same digest input get the same identity:
      recomputing it on the same host is deterministic. */
  lemma SameInputSameId(a: seq<string>, b: seq<string>, rootA: string, rootB: string, md5: string -> string)
    requires a != [] && b != [] && Concat(a) + rootA == Concat(b) + rootB
    ensures RaspId(a, rootA, md5) == RaspId(b, rootB, md5)
  {
  }

  /** Adding a hardware address (a new network card) changes the digest input by
      appending that address's text right after the old addresses. */
  lemma ExtraAddressExtendsInput(hwAddrs: seq<string>, extra: string, rootDir: string)
    ensures Concat(hwAddrs + [extra]) + rootDir == Concat(hwAddrs) + extra + rootDir
  {
    ConcatSnoc(hwAddrs, extra);
  }

  /** `calculate_rasp_id`: builds the digest input with a loop over the addresses.
      `ok` is false exactly when there is no address; the id is then not computed. */
  method CalculateRaspId(hwAddrs: seq<string>, rootDir: string, md5: string -> string)
    returns (ok: bool, id: string)
    ensures ok <==> hwAddrs != []
    ensures ok ==> RaspId(hwAddrs, rootDir, md5) == Some(id)
    ensures !ok ==> id == ""
  {
    if hwAddrs == [] {
      return false, "";
    }
    var buf := "";
    var i := 0;
    while i < |hwAddrs|
      invariant 0 <= i <= |hwAddrs|
      invariant buf == Concat(hwAddrs[..i])
    {
      ConcatSnoc(hwAddrs[..i], hwAddrs[i]);
      assert hwAddrs[..i + 1] == hwAddrs[..i] + [hwAddrs[i]];
      buf := buf + hwAddrs[i];
      i := i + 1;
    }
    assert hwAddrs[..i] == hwAddrs;
    buf := buf + rootDir;
    ok, id := true, md5(buf);
  }
}
