/** The session state shared by all pages (app.py), with the state changes
    the pages make to it: the login of pages/welcome.py and the upload loop
    of pages/compare_CSVs.py.

    The framework's session state is a dictionary that starts out empty;
    `present` records which of its keys have been set. The scratch
    directory on disk is modelled by whether it exists and by the names of
    the files in it. */
module App {
  import opened Collections
  import opened DataUtils
  import opened SessionRegistry
  import CompareCsvs

  /** The session-state keys the application uses. */
  datatype Key = User | UploadsDir | DfList | Profilers | LogoutButtonCounter

  const AllKeys: set<Key> := {User, UploadsDir, DfList, Profilers, LogoutButtonCounter}

  const DefaultUploadsDir: string := "data/uploads"

  /** A Resources page (Analyze Data, Compare CSVs) is disabled in the
      navigation when no user is logged in. */
  function ResourcesDisabled(user: Option<string>): (disabled: bool)
    ensures disabled <==> user == None || user == Some("")
  {
    !Truthy(user)
  }

  class Session {
    var present: set<Key>
    var user: Option<string>
    var uploadsDir: string
    var dfList: seq<(string, Frame)>
    var profilers: seq<(string, Profiler)>
    var logoutButtonCounter: int
    var dirExists: bool
    var scratch: set<string>

    /** The invariant kept between runs, whatever keys are set so far;
        `Valid` adds that app.py has set them all and made the directory.
        Every key that is set holds a value the application could have put
        there: a logged-in user is never the empty string, the uploads
        directory is the default one, and the two lists are set together
        and satisfy the registry invariant. A directory that does not exist
        holds no files. */
    ghost predicate Consistent()
      reads this
    {
      && (User in present ==> user != Some(""))
      && (UploadsDir in present ==> uploadsDir == DefaultUploadsDir)
      && ((DfList in present) <==> (Profilers in present))
      && (DfList in present ==> RegistryOk(dfList, profilers))
      && (!dirExists ==> scratch == {})
    }

    /** The state every page finds after app.py has run. */
    ghost predicate Valid()
      reads this
    {
      Consistent() && present == AllKeys && dirExists
    }

    function RegistryState(): Registry
      reads this
    {
      Registry(dfList, profilers, scratch)
    }

    /** A new session: no key set yet, the scratch directory as found on disk. */
    constructor (dirExists: bool, files: set<string>)
      requires dirExists || files == {}
      ensures present == {} && this.dirExists == dirExists && scratch == files
      ensures Consistent()
    {
      present := {};
      user := None;
      uploadsDir := DefaultUploadsDir;
      dfList := [];
      profilers := [];
      logoutButtonCounter := 0;
      this.dirExists := dirExists;
      scratch := files;
    }

    /** app.py's initialisation: each key gets its default value only if
        it is absent; a value already there is kept. */
    method InitSessionState()
      requires Consistent()
      modifies this
      ensures Consistent() && present == AllKeys
      ensures user == (if User in old(present) then old(user) else None)
      ensures uploadsDir == DefaultUploadsDir
      ensures dfList == (if DfList in old(present) then old(dfList) else [])
      ensures profilers == (if Profilers in old(present) then old(profilers) else [])
      ensures logoutButtonCounter == (if LogoutButtonCounter in old(present) then old(logoutButtonCounter) else 0)
      ensures dirExists == old(dirExists) && scratch == old(scratch)
    {
      if User !in present {
        user := None;
        present := present + {User};
      }
      if UploadsDir !in present {
        uploadsDir := DefaultUploadsDir;
        present := present + {UploadsDir};
      }
      if DfList !in present {
        dfList := [];
        present := present + {DfList};
      }
      if Profilers !in present {
        profilers := [];
        present := present + {Profilers};
      }
      if LogoutButtonCounter !in present {
        logoutButtonCounter := 0;
        present := present + {LogoutButtonCounter};
      }
      forall k: Key ensures k in AllKeys {
        match k
        case User =>
        case UploadsDir =>
        case DfList =>
        case Profilers =>
        case LogoutButtonCounter =>
      }
    }

    /** `mkdir(parents=True, exist_ok=True)`: afterwards the directory
        exists, and files already in it stay. */
    method EnsureUploadsDir()
      requires Consistent()
      modifies this`dirExists
      ensures Consistent() && dirExists
    {
      dirExists := true;
    }

    /** The logout button: the directory is removed with its files, the
        user and both lists are reset, and the directory is made again.
        Removal ignores errors, so the files it fails to delete,
        `leftBehind`, stay (and with them the directory). Nothing else
        changes. */
    method Logout(leftBehind: set<string>)
      requires Valid() && Truthy(user) && leftBehind <= scratch
      modifies this
      ensures Valid()
      ensures user == None && dfList == [] && profilers == []
      ensures dirExists && scratch == leftBehind
      ensures present == old(present) && uploadsDir == old(uploadsDir)
      ensures logoutButtonCounter == old(logoutButtonCounter)
    {
      dirExists, scratch := leftBehind != {}, leftBehind;
      user := None;
      dfList := [];
      profilers := [];
      EnsureUploadsDir();
    }

    /** One run of app.py before the selected page: initialise the state,
        make sure the directory exists, disable the Resources pages exactly
        when nobody is logged in, and log out when a logged-in user clicks
        the button. `disabled` is the flag given to the Resources pages;
        `leftBehind` are the files a logout would fail to delete. */
    method RunApp(logoutClicked: bool, leftBehind: set<string>) returns (disabled: bool)
      requires Consistent() && leftBehind <= scratch
      modifies this
      ensures Valid()
      ensures disabled <==> (User !in old(present) || old(user) == None)
      ensures !disabled && logoutClicked ==>
        user == None && dfList == [] && profilers == [] && scratch == leftBehind
      ensures disabled || !logoutClicked ==>
        && user == (if User in old(present) then old(user) else None)
        && dfList == (if DfList in old(present) then old(dfList) else [])
        && profilers == (if Profilers in old(present) then old(profilers) else [])
        && scratch == old(scratch)
      ensures uploadsDir == DefaultUploadsDir
      ensures logoutButtonCounter == (if LogoutButtonCounter in old(present) then old(logoutButtonCounter) else 0)
    {
      InitSessionState();
      EnsureUploadsDir();
      disabled := ResourcesDisabled(user);
      if Truthy(user) && logoutClicked {
        Logout(leftBehind);
      }
    }

    /** pages/welcome.py: the login form is shown only when nobody is
        logged in, and a submitted non-empty username becomes the user, as
        it is, without any check. Nothing else changes. */
    method Login(submitted: bool, username: string) returns (formShown: bool)
      requires Valid()
      modifies this`user
      ensures Valid()
      ensures formShown <==> !Truthy(old(user))
      ensures user == (if formShown && submitted && username != "" then Some(username) else old(user))
    {
      formShown := !Truthy(user);
      if formShown {
        if submitted && username != "" {
          user := Some(username);
        }
      }
    }

    /** The upload loop of pages/compare_CSVs.py, run by a logged-in user
        over the files of one upload widget: the registry ends up as
        `Batch` describes, which keeps the registry invariant. */
    method UploadFiles(files: seq<Upload>, parse: seq<bv8> -> Option<Frame>, canWrite: string -> bool)
      requires Valid() && Truthy(user)
      modifies this`dfList, this`profilers, this`scratch
      ensures Valid()
      ensures RegistryState() == Batch(old(RegistryState()), files, user.value, parse, canWrite)
    {
      var name := user.value;
      ghost var start := RegistryState();
      var i := 0;
      while i < |files|
        invariant 0 <= i <= |files|
        invariant RegistryState() == Batch(start, files[..i], name, parse, canWrite)
      {
        var f := files[i];
        if f.name !in Names(dfList) {
          match parse(f.content) {
            case None =>
            case Some(df) =>
              var path := ScratchName(name, f.name);
              if canWrite(path) {
                scratch := scratch + {path};
                dfList := dfList + [(f.name, df)];
                profilers := profilers + [(f.name, Profiler(df))];
              }
          }
        }
        assert files[..i + 1][..i] == files[..i];
        i := i + 1;
      }
      assert files[..|files|] == files;
      BatchKeepsRegistryOk(start, files, name, parse, canWrite);
    }

    /** pages/compare_CSVs.py as a whole: it stops for a visitor who is not
        logged in; otherwise it runs the upload loop and then shows the
        selection and metrics for the updated registry. */
    method ComparePage(files: seq<Upload>, parse: seq<bv8> -> Option<Frame>, canWrite: string -> bool,
                       pick1: nat, pick2: nat) returns (view: Option<CompareCsvs.CompareView>)
      requires Valid()
      modifies this`dfList, this`profilers, this`scratch
      ensures Valid()
      ensures view.None? <==> !Truthy(user)
      ensures view.None? ==> RegistryState() == old(RegistryState())
      ensures view.Some? ==>
        && RegistryState() == Batch(old(RegistryState()), files, user.value, parse, canWrite)
        && view.value == CompareCsvs.Compare(dfList, pick1, pick2)
    {
      if !Truthy(user) {
        return None;
      }
      UploadFiles(files, parse, canWrite);
      view := Some(CompareCsvs.Compare(dfList, pick1, pick2));
    }
  }
}
