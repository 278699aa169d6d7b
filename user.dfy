/** The display name of a user profile, built from its optional name columns. */
module Users {
  import opened Wrappers
  import opened PyStrings

  /** The name columns of a user profile; each may be absent. */
  datatype UserProfile = UserProfile(firstName: Option<string>, middleName: Option<string>, lastName: Option<string>)

  /** The names in the order they are joined: first, middle, last. */
  function NameList(p: UserProfile): seq<Option<string>> {
    [p.firstName, p.middleName, p.lastName]
  }

  /** The filter `name for name in names if name`: the truthy names, in their order. */
  function PresentNames(names: seq<Option<string>>): (r: seq<string>)
    ensures |r| <= |names|
    ensures forall i :: 0 <= i < |r| ==> r[i] != "" && Some(r[i]) in names
    ensures r == [] <==> forall i :: 0 <= i < |names| ==> !Truthy(names[i])
  {
    if names == [] then []
    else
      var rest := PresentNames(names[1..]);
      assert forall i :: 0 <= i < |rest| ==> Some(rest[i]) in names by {
        assert forall x :: x in names[1..] ==> x in names;
      }
      assert (forall i :: 0 <= i < |names| ==> !Truthy(names[i]))
          <==> !Truthy(names[0]) && forall i :: 0 <= i < |names[1..]| ==> !Truthy(names[1..][i]) by {
        forall i | 0 < i < |names| ensures names[i] == names[1..][i - 1] { }
      }
      (if Truthy(names[0]) then [names[0].value] else []) + rest
  }

  /** The profile's full name: its present names joined with single spaces. */
  function FullName(p: UserProfile): (r: string)
    ensures r == "" <==> !Truthy(p.firstName) && !Truthy(p.middleName) && !Truthy(p.lastName)
  {
    var present := PresentNames(NameList(p));
    assert present == [] <==> !Truthy(p.firstName) && !Truthy(p.middleName) && !Truthy(p.lastName) by {
      var names := NameList(p);
      assert names[0] == p.firstName && names[1] == p.middleName && names[2] == p.lastName;
    }
    Join(present, " ")
  }

  /** The present names of a profile, spelled out case by case. */
  lemma PresentNamesOfProfile(p: UserProfile)
    ensures PresentNames(NameList(p))
         == (if Truthy(p.firstName) then [p.firstName.value] else [])
          + (if Truthy(p.middleName) then [p.middleName.value] else [])
          + (if Truthy(p.lastName) then [p.lastName.value] else [])
  {
    var names := NameList(p);
    assert names[1..] == [p.middleName, p.lastName];
    assert names[1..][1..] == [p.lastName];
    assert names[1..][1..][1..] == [];
  }

  /** When exactly one part is present, the full name is that part. */
  lemma FullNameOnePart(p: UserProfile)
    ensures Truthy(p.firstName) && !Truthy(p.middleName) && !Truthy(p.lastName) ==> FullName(p) == p.firstName.value
    ensures !Truthy(p.firstName) && Truthy(p.middleName) && !Truthy(p.lastName) ==> FullName(p) == p.middleName.value
    ensures !Truthy(p.firstName) && !Truthy(p.middleName) && Truthy(p.lastName) ==> FullName(p) == p.lastName.value
  {
    PresentNamesOfProfile(p);
    var f, m, l := p.firstName, p.middleName, p.lastName;
    if Truthy(f) && !Truthy(m) && !Truthy(l) {
      assert PresentNames(NameList(p)) == [f.value];
    } else if !Truthy(f) && Truthy(m) && !Truthy(l) {
      assert PresentNames(NameList(p)) == [m.value];
    } else if !Truthy(f) && !Truthy(m) && Truthy(l) {
      assert PresentNames(NameList(p)) == [l.value];
    }
  }

  /** Two present parts are joined by one space, in the order first, middle, last. */
  lemma FullNameTwoParts(p: UserProfile)
    ensures Truthy(p.firstName) && !Truthy(p.middleName) && Truthy(p.lastName)
      ==> FullName(p) == p.firstName.value + " " + p.lastName.value
    ensures Truthy(p.firstName) && Truthy(p.middleName) && !Truthy(p.lastName)
      ==> FullName(p) == p.firstName.value + " " + p.middleName.value
    ensures !Truthy(p.firstName) && Truthy(p.middleName) && Truthy(p.lastName)
      ==> FullName(p) == p.middleName.value + " " + p.lastName.value
  {
    PresentNamesOfProfile(p);
    var f, m, l := p.firstName, p.middleName, p.lastName;
    if Truthy(f) && !Truthy(m) && Truthy(l) {
      assert PresentNames(NameList(p)) == [f.value, l.value];
      JoinSmall(f.value, l.value, "", " ");
    } else if Truthy(f) && Truthy(m) && !Truthy(l) {
      assert PresentNames(NameList(p)) == [f.value, m.value];
      JoinSmall(f.value, m.value, "", " ");
    } else if !Truthy(f) && Truthy(m) && Truthy(l) {
      assert PresentNames(NameList(p)) == [m.value, l.value];
      JoinSmall(m.value, l.value, "", " ");
    }
  }

  /** With all three parts present, the full name is first, middle and last, space-separated. */
  lemma FullNameAllParts(p: UserProfile)
    requires Truthy(p.firstName) && Truthy(p.middleName) && Truthy(p.lastName)
    ensures FullName(p) == p.firstName.value + " " + p.middleName.value + " " + p.lastName.value
  {
    PresentNamesOfProfile(p);
    var f, m, l := p.firstName.value, p.middleName.value, p.lastName.value;
    assert PresentNames(NameList(p)) == [f, m, l];
    JoinSmall(f, m, l, " ");
  }

  /** An empty name part is omitted exactly as an absent one is. */
  lemma EmptyPartOmitted(p: UserProfile)
    ensures FullName(p.(firstName := Some(""))) == FullName(p.(firstName := None))
    ensures FullName(p.(middleName := Some(""))) == FullName(p.(middleName := None))
    ensures FullName(p.(lastName := Some(""))) == FullName(p.(lastName := None))
  {
    PresentNamesOfProfile(p.(firstName := Some("")));
    PresentNamesOfProfile(p.(firstName := None));
    PresentNamesOfProfile(p.(middleName := Some("")));
    PresentNamesOfProfile(p.(middleName := None));
    PresentNamesOfProfile(p.(lastName := Some("")));
    PresentNamesOfProfile(p.(lastName := None));
  }

  /** No name part contains a space. */
  predicate SpaceFree(p: UserProfile) {
    && (p.firstName.Some? ==> ' ' !in p.firstName.value)
    && (p.middleName.Some? ==> ' ' !in p.middleName.value)
    && (p.lastName.Some? ==> ' ' !in p.lastName.value)
  }

  /**
   * When no part contains a space and some part is present, splitting the full name on
   * spaces gives back exactly the present parts, in order.
   */
  lemma FullNameSplits(p: UserProfile)
    requires SpaceFree(p)
    requires Truthy(p.firstName) || Truthy(p.middleName) || Truthy(p.lastName)
    ensures Split(FullName(p), ' ') == PresentNames(NameList(p))
  {
    var names := NameList(p);
    var present := PresentNames(names);
    assert names[0] == p.firstName && names[1] == p.middleName && names[2] == p.lastName;
    assert FreeOf(present, ' ') by {
      forall i | 0 <= i < |present| ensures ' ' !in present[i] {
        assert Some(present[i]) in names;
      }
    }
    assert " " == [' '];
    SplitJoin(present, ' ');
  }
}
