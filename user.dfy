/** The user profile: a name and a place of residence, kept in local storage. */
module Users {
  import opened Storage

  const ProfileKey: string := "user_profile"

  class User {
    var name: string
    var residence: string
    const storage: LocalStorage

    constructor (storage: LocalStorage)
      ensures name == "" && residence == ""
      ensures this.storage == storage
    {
      name := "";
      residence := "";
      this.storage := storage;
    }

    /** Registered means both fields are filled in. */
    predicate IsRegistered(): (registered: bool)
      reads this
      ensures registered <==> |name| > 0 && |residence| > 0
    {
      name != "" && residence != ""
    }

    /** Sets both fields and overwrites the stored profile with them. */
    method Save(name: string, residence: string)
      modifies this, storage
      ensures this.name == name && this.residence == residence
      ensures storage.items == old(storage.items)[ProfileKey := Profile(name, residence)]
    {
      this.name := name;
      this.residence := residence;
      storage.items := storage.items[ProfileKey := Profile(name, residence)];
    }

    /** Restores both fields from the stored profile, if there is one. */
    method Load() returns (found: bool)
      modifies this
      ensures found <==> ProfileKey in storage.items && storage.items[ProfileKey].Profile?
      ensures found ==> name == storage.items[ProfileKey].name && residence == storage.items[ProfileKey].residence
      ensures !found ==> name == old(name) && residence == old(residence)
    {
      found := ProfileKey in storage.items && storage.items[ProfileKey].Profile?;
      if found {
        name := storage.items[ProfileKey].name;
        residence := storage.items[ProfileKey].residence;
      }
    }
  }

  /** A profile saved by one user object is what a fresh one over the same storage loads. */
  method SaveThenLoad(storage: LocalStorage, name: string, residence: string) returns (found: bool, reloaded: User)
    modifies storage
    ensures fresh(reloaded) && reloaded.storage == storage
    ensures found && reloaded.name == name && reloaded.residence == residence
    ensures reloaded.IsRegistered() <==> name != "" && residence != ""
  {
    var u := new User(storage);
    u.Save(name, residence);
    reloaded := new User(storage);
    found := reloaded.Load();
  }

  /** Loading from a storage without a profile finds nothing and leaves the fields empty. */
  method LoadWithoutProfile(storage: LocalStorage) returns (found: bool, u: User)
    requires ProfileKey !in storage.items
    ensures !found && u.name == "" && u.residence == "" && !u.IsRegistered()
  {
    u := new User(storage);
    found := u.Load();
  }
}
