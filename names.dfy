/**
 * readline's application name, `rl_readline_name`, as `readline.setname` and
 * `readline.getname` see it: a pointer to a NUL-terminated buffer. The slot
 * also records which name buffers were obtained from malloc and not yet
 * freed, and whether `free` was ever handed a pointer malloc did not return.
 */
module ReadlineName {
  import opened CStrings
  import opened Wrappers

  class NameSlot {
    var name: array?<char>          // rl_readline_name
    ghost var heap: set<array<char>> // name buffers from malloc not yet freed
    ghost var badFree: bool         // free() was given a pointer malloc never returned
    var owned: bool                 // the current name is a buffer this binding allocated

    /** Every name buffer the binding allocated is the current name: nothing leaked, nothing freed wrongly. */
    ghost predicate Valid()
      reads this
    {
      && !badFree
      && (owned ==> name != null && heap == {name})
      && (!owned ==> heap == {})
    }

    /**
     * The slot as readline initialises it: a static string that was not
     * obtained from malloc.
     */
    constructor (initial: string)
      ensures name != null && fresh(name) && name[..] == initial + [NUL]
      ensures heap == {} && !badFree && !owned
      ensures Valid()
    {
      name := new char[|initial| + 1](i requires 0 <= i <= |initial| => if i < |initial| then initial[i] else NUL);
      heap, badFree, owned := {}, false, false;
    }

    /** free(p) */
    method Free(p: array<char>)
      modifies this`heap, this`badFree
      ensures heap == old(heap) - {p}
      ensures badFree == (old(badFree) || p !in old(heap))
    {
      badFree := badFree || p !in heap;
      heap := heap - {p};
    }

    /** clonestr: a fresh malloc'd copy of the text with its terminator (allocation assumed to succeed). */
    method CloneStr(s: string) returns (p: array<char>)
      modifies this`heap
      ensures fresh(p) && p[..] == s + [NUL]
      ensures heap == old(heap) + {p}
    {
      p := Duplicate(s);
      heap := heap + {p};
    }

    /**
     * lua_setname as written: free whatever the slot points to, then install
     * a fresh copy of the new name. The first call frees readline's static
     * initial name. The code keeps no record of which name it allocated, so
     * this path leaves `owned` alone and is not bound by Valid().
     */
    method SetNameAsWritten(n: string)
      modifies this`name, this`heap, this`badFree
      ensures name != null && fresh(name) && name[..] == n + [NUL]
      ensures heap == (if old(name) != null then old(heap) - {old(name)} else old(heap)) + {name}
      ensures badFree == (old(badFree) || (old(name) != null && old(name) !in old(heap)))
    {
      if name != null {
        Free(name);
      }
      var copy := CloneStr(n);
      name := copy;
    }

    /**
     * lua_setname freeing only a name this binding installed: the old copy is
     * released before the new one (strlen + 1 characters) is installed, and
     * the slot never holds more than one allocated name.
     */
    method SetName(n: string)
      requires Valid()
      modifies this
      ensures Valid() && owned
      ensures name != null && fresh(name) && name[..] == n + [NUL]
      ensures name.Length == |n| + 1 && heap == {name}
      ensures old(owned) ==> old(name) !in heap
    {
      if owned {
        Free(name);
      }
      var copy := CloneStr(n);
      name, owned := copy, true;
    }

    /** lua_getname: the text of the current name, or nil when the pointer is NULL. */
    method GetName() returns (r: Option<string>)
      ensures name == null ==> r == None
      ensures name != null ==> r == Some(CStr(name[..]))
      ensures r.Some? ==> NulFree(r.value) && r.value <= name[..]
    {
      if name == null {
        r := None;
      } else {
        r := Some(CStr(name[..]));
      }
    }
  }

  /** After setname(n), getname() returns n. */
  method SetThenGet(slot: NameSlot, n: string) returns (r: Option<string>)
    requires slot.Valid() && NulFree(n)
    modifies slot
    ensures r == Some(n) && slot.Valid() && slot.heap == {slot.name}
  {
    slot.SetName(n);
    r := slot.GetName();
    CStrOfTerminated(n);
  }

  /** The code as written keeps the round trip too: after setname(n), getname() returns n. */
  method SetThenGetAsWritten(slot: NameSlot, n: string) returns (r: Option<string>)
    requires NulFree(n)
    modifies slot
    ensures r == Some(n)
    ensures slot.name != null && slot.name in slot.heap
  {
    slot.SetNameAsWritten(n);
    r := slot.GetName();
    CStrOfTerminated(n);
  }

  /** As written, the first setname frees readline's static initial name. */
  method FirstSetNameFreesStaticName() returns (slot: NameSlot)
    ensures slot.badFree
  {
    slot := new NameSlot("other");
    slot.SetNameAsWritten("repl");
  }

  /** Freeing only what the binding allocated, two setname calls leave one allocated name and no bad free. */
  method SetNameTwice() returns (slot: NameSlot, r: Option<string>)
    ensures slot.Valid() && r == Some("lua") && |slot.heap| == 1
  {
    slot := new NameSlot("other");
    slot.SetName("repl");
    r := SetThenGet(slot, "lua");
  }
}
