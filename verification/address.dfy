/**
 * The mock wallet address of the `get_wallet_address` tool:
 * `"0x"` followed by the first forty characters of the user id, padded on the
 * right with `'0'` to forty characters.
 */
module Address {
  /** The number of characters after the `0x` prefix. */
  const Width := 40

  /** `s.slice(start, end)` for non-negative indices: both are clamped to the length. */
  function Slice(s: string, start: nat, end: nat): (r: string)
    ensures |r| == (if start < end && start < |s| then Min(end, |s|) - start else 0)
    ensures forall i :: 0 <= i < |r| ==> r[i] == s[start + i]
  {
    var from := Min(start, |s|);
    var to := Min(end, |s|);
    if from < to then s[from..to] else ""
  }

  function Min(a: nat, b: nat): nat {
    if a < b then a else b
  }

  /** `s.padEnd(n, fill)`: `s` itself, followed by enough `fill` characters to reach length `n`. */
  function PadEnd(s: string, n: nat, fill: char): (r: string)
    ensures |r| == (if |s| < n then n else |s|)
    ensures r[..|s|] == s
    ensures forall i :: |s| <= i < |r| ==> r[i] == fill
  {
    if |s| < n then s + Repeat(fill, n - |s|) else s
  }

  /** `k` copies of `c`. */
  function Repeat(c: char, k: nat): (r: string)
    ensures |r| == k
    ensures forall i :: 0 <= i < k ==> r[i] == c
  {
    if k == 0 then "" else [c] + Repeat(c, k - 1)
  }

  /** The character the address holds at digit position `i`: the user id's, or `'0'` past its end. */
  function DigitAt(userId: string, i: nat): char {
    if i < |userId| then userId[i] else '0'
  }

  /**
   * The mock address: 42 characters, `0x`, then each digit position holds the
   * user id's character or, past its end, `'0'`.
   */
  function MockAddress(userId: string): (r: string)
    ensures |r| == 2 + Width
    ensures r[..2] == "0x"
    ensures forall i :: 0 <= i < Width ==> r[2 + i] == DigitAt(userId, i)
  {
    "0x" + PadEnd(Slice(userId, 0, Width), Width, '0')
  }

  /**
   * Two user ids get the same address exactly when they agree on the first
   * forty digit positions, reading a missing character as `'0'`; so ids that
   * differ only after position forty, or only by trailing zeros up to it, collide.
   */
  lemma MockAddressEqual(u: string, v: string)
    ensures MockAddress(u) == MockAddress(v) <==> forall i :: 0 <= i < Width ==> DigitAt(u, i) == DigitAt(v, i)
  {
    var a, b := MockAddress(u), MockAddress(v);
    if forall i :: 0 <= i < Width ==> DigitAt(u, i) == DigitAt(v, i) {
      forall k | 0 <= k < |a| ensures a[k] == b[k] {
        if k >= 2 {
          var i := k - 2;
          assert DigitAt(u, i) == DigitAt(v, i);
          assert a[2 + i] == DigitAt(u, i) && b[2 + i] == DigitAt(v, i);
        } else {
          assert a[..2][k] == b[..2][k];
        }
      }
    } else {
      var i :| 0 <= i < Width && DigitAt(u, i) != DigitAt(v, i);
      assert a[2 + i] != b[2 + i];
    }
  }

  /** A user id of forty characters or more contributes exactly its first forty. */
  lemma MockAddressOfLongId(userId: string)
    requires |userId| >= Width
    ensures MockAddress(userId) == "0x" + userId[..Width]
  {
    var r := MockAddress(userId);
    assert r[2..] == userId[..Width] by {
      forall i | 0 <= i < Width ensures r[2..][i] == userId[..Width][i] {
        assert r[2 + i] == DigitAt(userId, i);
      }
    }
    assert r == r[..2] + r[2..];
  }
}
