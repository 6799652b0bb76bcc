/** The sender's view of how much the remote can still buffer (muxado/src/window.rs). */
module Windows {
  import opened Wrappers

  datatype WindowState = WindowState(maxSize: nat, size: nat) {
    /** Credit returned by the remote; whatever would exceed the maximum is discarded. */
    function Inc(n: nat): (w: WindowState)
      ensures w.maxSize == maxSize
      ensures size <= maxSize ==> size <= w.size <= maxSize
      ensures size + n <= maxSize ==> w.size == size + n
      ensures n > 0 && size + n > maxSize ==> w.size == maxSize
      ensures n == 0 ==> w == this
    {
      if n == 0 then this else this.(size := Min(size + n, maxSize))
    }

    function Dec(n: nat): (w: WindowState)
      ensures w.maxSize == maxSize && w.size <= size
      ensures n <= size ==> w.size == size - n
      ensures n > size ==> w.size == 0
    {
      this.(size := size - Min(size, n))
    }
  }

  class Window {
    var maxSize: nat
    var size: nat

    ghost function View(): WindowState
      reads this
    {
      WindowState(maxSize, size)
    }

    constructor (capacity: nat)
      ensures View() == WindowState(capacity, capacity)
    {
      maxSize, size := capacity, capacity;
    }

    method Inc(n: nat)
      modifies this
      ensures View() == old(View()).Inc(n)
    {
      if n == 0 {
        return;
      }
      size := Min(size + n, maxSize);
    }

    method Capacity() returns (n: nat)
      ensures n == View().size
    {
      n := size;
    }

    /** Returns how much was really taken: all of it exactly when there was room for it. */
    method Dec(n: nat) returns (actual: nat)
      modifies this
      ensures View() == old(View()).Dec(n)
      ensures actual + size == old(size)
      ensures actual == n <==> n <= old(size)
    {
      actual := Min(size, n);
      size := size - actual;
    }
  }
}
