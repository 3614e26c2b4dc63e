/** Go slices: a length within a shared backing array. `append` writes in place while there is room. */
module Slices {

  datatype Slice<T> = Slice(buf: array<T>, len: nat)

  ghost predicate InBounds<T>(s: Slice<T>) {
    s.len <= s.buf.Length
  }

  ghost function View<T>(s: Slice<T>): seq<T>
    requires InBounds(s)
    reads s.buf
  {
    s.buf[..s.len]
  }

  /** The result shares the backing array or has a new one; either way the argument still reads the same. */
  method Append<T>(s: Slice<T>, x: T) returns (r: Slice<T>)
    requires InBounds(s)
    modifies s.buf
    ensures InBounds(r) && View(r) == old(View(s)) + [x]
    ensures r.buf == s.buf || fresh(r.buf)
    ensures View(s) == old(View(s))
  {
    if s.len < s.buf.Length {
      s.buf[s.len] := x;
      r := Slice(s.buf, s.len + 1);
    } else {
      var kept := s.buf[..s.len];
      var buf := new T[2 * s.len + 1](i => if 0 <= i < |kept| then kept[i] else x);
      r := Slice(buf, s.len + 1);
      assert buf[..s.len] == kept;
    }
  }

  /**
   `append(r, xs...)`, where `r` grew out of `base`: whether or not the two share their backing array,
   `base` still reads the same.
   */
  method Extend<T>(base: Slice<T>, s: Slice<T>, xs: seq<T>) returns (r: Slice<T>)
    requires InBounds(base) && InBounds(s) && base.len <= s.len
    modifies s.buf
    ensures InBounds(r) && View(r) == old(View(s)) + xs && r.len == s.len + |xs|
    ensures r.buf == s.buf || fresh(r.buf)
    ensures View(s) == old(View(s)) && View(base) == old(View(base))
  {
    r := s;
    for i := 0 to |xs|
      invariant InBounds(r) && View(r) == old(View(s)) + xs[..i] && r.len == s.len + i
      invariant r.buf == s.buf || fresh(r.buf)
      invariant View(s) == old(View(s)) && View(base) == old(View(base))
    {
      ghost var before := View(r);
      r := Append(r, xs[i]);
      assert xs[..i + 1] == xs[..i] + [xs[i]];
      assert View(r)[..s.len] == old(View(s));
      assert View(s) == old(View(s)) by {
        if r.buf == s.buf {
          assert View(s) == View(r)[..s.len];
        }
      }
      assert View(base) == old(View(base)) by {
        if base.buf == s.buf {
          assert View(base) == View(s)[..base.len] && old(View(base)) == old(View(s))[..base.len];
        }
      }
    }
    assert xs[..|xs|] == xs;
  }
}
