/** Key events from the host: KeyPressed (Emulator.cpp:1085-1119) and
    KeyReleased (Emulator.cpp:1123-1128). A clear bit of the key byte is a
    held key; keys 0-3 are the directions, 4-7 the buttons. Both read the
    stored byte at 0xFF00 directly, not through ReadMemory. */
module Input {
  import opened Bits
  import opened Joypad
  import opened Machine
  import opened MemoryProperties

  /** The joypad interrupt is raised for a key only while the game selects
      its group in the stored 0xFF00 byte: bit 5 clear for a button, bit 4
      clear for a direction. */
  predicate Interested(p1: bv8, key: nat)
    requires key < 8
  {
    if key > 3 then !TestBit(p1, 5) else !TestBit(p1, 4)
  }

  /** KeyPressed: clear the key's bit, and request interrupt 4 if the game
      is interested and the key was not already held. */
  function KeyPressed(m: Machine, key: nat): (r: Machine)
    requires Valid(m) && key < 8
    ensures Valid(r)
  {
    var wasUp := TestBit(m.joypad, key);
    var pressed := m.(joypad := BitReset(m.joypad, key));
    if Interested(m.mem[0xFF00], key) && wasUp then Request(pressed, 4) else pressed
  }

  /** KeyReleased: set the key's bit. */
  function KeyReleased(m: Machine, key: nat): (r: Machine)
    requires Valid(m) && key < 8
    ensures Valid(r)
  {
    m.(joypad := BitSet(m.joypad, key))
  }

  // ---------------------------------------------------------------------
  // Properties
  // ---------------------------------------------------------------------

  /** After KeyPressed(k) key k is held, every other key keeps its state,
      and interrupt bit 4 is set exactly when it was set before or the key
      went down while the game selected its group. Nothing but the key
      byte and IF changes. */
  lemma PressRequestsJoypadInterrupt(m: Machine, key: nat)
    requires Valid(m) && key < 8
    ensures var r := KeyPressed(m, key);
      && !TestBit(r.joypad, key)
      && (forall j :: 0 <= j < 8 && j != key ==> TestBit(r.joypad, j) == TestBit(m.joypad, j))
      && (TestBit(r.mem[0xFF0F], 4) <==>
            TestBit(m.mem[0xFF0F], 4) || (TestBit(m.joypad, key) && Interested(m.mem[0xFF00], key)))
      && r == m.(joypad := r.joypad, mem := m.mem[0xFF0F := r.mem[0xFF0F]])
  {
    forall j | 0 <= j < 8 && j != key
      ensures TestBit(BitReset(m.joypad, key), j) == TestBit(m.joypad, j)
    {
      OtherBitsKept(m.joypad, key, j);
    }
  }

  /** IF keeps every bit but 4 through KeyPressed. */
  lemma PressKeepsOtherRequests(m: Machine, key: nat, j: nat)
    requires Valid(m) && key < 8 && j < 8 && j != 4
    ensures TestBit(KeyPressed(m, key).mem[0xFF0F], j) == TestBit(m.mem[0xFF0F], j)
  {
    OtherBitsKept(m.mem[0xFF0F], 4, j);
  }

  /** After KeyReleased(k) key k is up and every other key keeps its
      state; nothing else changes. */
  lemma ReleaseLiftsKey(m: Machine, key: nat)
    requires Valid(m) && key < 8
    ensures var r := KeyReleased(m, key);
      && TestBit(r.joypad, key)
      && (forall j :: 0 <= j < 8 && j != key ==> TestBit(r.joypad, j) == TestBit(m.joypad, j))
      && r == m.(joypad := r.joypad)
  {
    forall j | 0 <= j < 8 && j != key
      ensures TestBit(BitSet(m.joypad, key), j) == TestBit(m.joypad, j)
    {
      OtherBitsKept(m.joypad, key, j);
    }
  }

  /** Pressing a key that is up and releasing it again restores the key
      byte. */
  lemma PressThenRelease(m: Machine, key: nat)
    requires Valid(m) && key < 8 && TestBit(m.joypad, key)
    ensures KeyReleased(KeyPressed(m, key), key).joypad == m.joypad
  {
    var b := m.joypad;
    assert BitSet(BitReset(b, key), key) == b;
  }

  /** Releasing a held key and pressing it again restores the key byte;
      the press is then a new one, so it requests the interrupt whenever
      the game is interested. */
  lemma ReleaseThenPress(m: Machine, key: nat)
    requires Valid(m) && key < 8 && !TestBit(m.joypad, key)
    ensures var r := KeyPressed(KeyReleased(m, key), key);
      && r.joypad == m.joypad
      && (Interested(m.mem[0xFF00], key) ==> TestBit(r.mem[0xFF0F], 4))
  {
    var b := m.joypad;
    assert BitReset(BitSet(b, key), key) == b;
  }

  /** A key held through KeyPressed reads as a clear bit of 0xFF00 (through
      ReadMemory) while its group is the visible one. */
  lemma PressedKeyReadsClear(m: Machine, key: nat)
    requires Valid(m) && key < 8
    requires if key > 3 then TestBit(m.mem[0xFF00], 4) else !TestBit(m.mem[0xFF00], 4) && TestBit(m.mem[0xFF00], 5)
    ensures !TestBit(Read(KeyPressed(m, key), 0xFF00), key % 4)
  {
    var r := KeyPressed(m, key);
    assert r.mem[0xFF00] == m.mem[0xFF00];
    HeldKeyReadsClear(r.mem[0xFF00], r.joypad, key);
  }
}
