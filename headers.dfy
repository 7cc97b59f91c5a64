/**
 * Header lists with the semantics of the Fetch Standard's Headers class:
 * names are case-insensitive and stored lower-cased, a name may occur more
 * than once (so repeated Set-Cookie entries stay distinct), `get` combines
 * the values with ", ", `set` replaces the first entry and drops the rest,
 * `append` adds one entry, `delete` drops every entry of that name.
 */
module HttpHeaders {
  import opened Wrappers
  import opened Strings

  datatype Header = Header(name: string, value: string)

  type HeaderList = seq<Header>

  /** The values stored under `name`, in order. */
  function Values(h: HeaderList, name: string): seq<string> {
    if h == [] then []
    else (if h[0].name == name then [h[0].value] else []) + Values(h[1..], name)
  }

  /** Headers.get: the combined value, or None when there is no such entry. */
  function GetHeader(h: HeaderList, name: string): Option<string> {
    var vs := Values(h, name);
    if vs == [] then None else Some(Join(vs, ", "))
  }

  function AppendHeader(h: HeaderList, name: string, value: string): HeaderList {
    h + [Header(name, value)]
  }

  function DeleteHeader(h: HeaderList, name: string): HeaderList {
    if h == [] then []
    else (if h[0].name == name then [] else [h[0]]) + DeleteHeader(h[1..], name)
  }

  /**
   * Headers.set: replace the value of the first entry named `name` and drop
   * the other entries of that name, or append when there is none.
   */
  function SetHeader(h: HeaderList, name: string, value: string): HeaderList {
    if h == [] then [Header(name, value)]
    else if h[0].name == name then [Header(name, value)] + DeleteHeader(h[1..], name)
    else [h[0]] + SetHeader(h[1..], name, value)
  }

  // ---------------------------------------------------------------------
  // What each operation does to the values stored under every name

  lemma {:induction false} ValuesConcat(a: HeaderList, b: HeaderList, name: string)
    ensures Values(a + b, name) == Values(a, name) + Values(b, name)
  {
    if a != [] {
      assert (a + b)[0] == a[0] && (a + b)[1..] == a[1..] + b;
      ValuesConcat(a[1..], b, name);
      var x := if a[0].name == name then [a[0].value] else [];
      assert Values(a + b, name) == x + (Values(a[1..], name) + Values(b, name));
      assert x + (Values(a[1..], name) + Values(b, name)) == (x + Values(a[1..], name)) + Values(b, name);
    } else {
      assert a + b == b;
    }
  }

  lemma AppendValues(h: HeaderList, name: string, value: string, other: string)
    ensures Values(AppendHeader(h, name, value), other) ==
      Values(h, other) + (if other == name then [value] else [])
  {
    ValuesConcat(h, [Header(name, value)], other);
  }

  lemma {:induction false} DeleteValues(h: HeaderList, name: string, other: string)
    ensures Values(DeleteHeader(h, name), other) == if other == name then [] else Values(h, other)
  {
    if h != [] {
      DeleteValues(h[1..], name, other);
      ValuesConcat(if h[0].name == name then [] else [h[0]], DeleteHeader(h[1..], name), other);
    }
  }

  /** After set, `name` holds exactly the new value and other names are untouched. */
  lemma {:induction false} SetValues(h: HeaderList, name: string, value: string, other: string)
    ensures Values(SetHeader(h, name, value), other) == if other == name then [value] else Values(h, other)
  {
    if h == [] {
    } else if h[0].name == name {
      DeleteValues(h[1..], name, other);
      ValuesConcat([Header(name, value)], DeleteHeader(h[1..], name), other);
    } else {
      SetValues(h[1..], name, value, other);
      ValuesConcat([h[0]], SetHeader(h[1..], name, value), other);
    }
  }

  /**
   * A Headers object: its header list, changed in place by set, append and
   * delete.  The runtime lower-cases every name it is given; the model's
   * callers pass names in that lower-case form.
   */
  class Headers {
    var entries: HeaderList

    constructor ()
      ensures entries == []
    {
      entries := [];
    }

    /** `new Headers(other)` */
    constructor Copy(other: Headers)
      ensures entries == other.entries
    {
      entries := other.entries;
    }

    function Get(name: string): Option<string>
      reads this
    {
      GetHeader(entries, name)
    }

    predicate Has(name: string)
      reads this
    {
      Values(entries, name) != []
    }

    /** Headers.getAll: every value stored under `name`, one per entry. */
    function GetAll(name: string): seq<string>
      reads this
    {
      Values(entries, name)
    }

    method Set(name: string, value: string)
      modifies this
      ensures entries == SetHeader(old(entries), name, value)
    {
      entries := SetHeader(entries, name, value);
    }

    method Append(name: string, value: string)
      modifies this
      ensures entries == AppendHeader(old(entries), name, value)
    {
      entries := entries + [Header(name, value)];
    }

    method Delete(name: string)
      modifies this
      ensures entries == DeleteHeader(old(entries), name)
    {
      entries := DeleteHeader(entries, name);
    }
  }
}
