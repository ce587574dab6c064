/** Which of a container's variables are secret, and which secrets go to which app. */
module Partition {
  import opened Secrets

  /** An app's manifest: the names it declares under `secrets:`. */
  datatype App = App(name: string, secrets: seq<string>)

  /** An object's keys are distinct. */
  predicate DistinctNames(entries: seq<Entry>) {
    forall i, j :: 0 <= i < j < |entries| ==> entries[i].name != entries[j].name
  }

  function Names(entries: seq<Entry>): set<string> {
    set i | 0 <= i < |entries| :: entries[i].name
  }

  /** `m` holds exactly the entries whose names are in `names`. */
  predicate Holds(m: map<string, string>, entries: seq<Entry>, names: set<string>) {
    && m.Keys == names * Names(entries)
    && forall i :: 0 <= i < |entries| && entries[i].name in names ==> m[entries[i].name] == entries[i].value
  }

  /** Every variable goes one way: to the secrets if it is declared or its name looks secret, and
      among the plain ones otherwise. */
  method PartitionSecretEnv(env: seq<Entry>, declared: set<string>, isSecret: string -> bool)
    returns (plain: map<string, string>, secret: map<string, string>)
    requires DistinctNames(env)
    ensures var secrets := set n | n in Names(env) && (n in declared || isSecret(n));
      Holds(secret, env, secrets) && Holds(plain, env, Names(env) - secrets)
  {
    plain, secret := map[], map[];
    for i := 0 to |env|
      invariant forall n :: n in secret <==> n in Names(env[..i]) && (n in declared || isSecret(n))
      invariant forall n :: n in plain <==> n in Names(env[..i]) && !(n in declared || isSecret(n))
      invariant forall j :: 0 <= j < i && env[j].name in secret ==> secret[env[j].name] == env[j].value
      invariant forall j :: 0 <= j < i && env[j].name in plain ==> plain[env[j].name] == env[j].value
    {
      var e := env[i];
      NamesGrow(env, i);
      if e.name in declared || isSecret(e.name) {
        secret := secret[e.name := e.value];
      } else {
        plain := plain[e.name := e.value];
      }
    }
    assert env[..|env|] == env;
  }

  lemma NamesGrow(entries: seq<Entry>, i: nat)
    requires i < |entries|
    ensures Names(entries[..i + 1]) == Names(entries[..i]) + {entries[i].name}
    ensures DistinctNames(entries) ==> entries[i].name !in Names(entries[..i])
  {
  }

  // ----- per app

  predicate Declares(apps: seq<App>, app: string, name: string) {
    exists i :: 0 <= i < |apps| && apps[i].name == app && name in apps[i].secrets
  }

  predicate Declared(apps: seq<App>, name: string) {
    exists i :: 0 <= i < |apps| && name in apps[i].secrets
  }

  function MissingOf(app: string, secrets: seq<string>, names: set<string>): seq<(string, string)> {
    if secrets == [] then []
    else MissingOf(app, secrets[..|secrets| - 1], names) + (if secrets[|secrets| - 1] in names then [] else [(app, secrets[|secrets| - 1])])
  }

  /** The declarations without a value, in the order of the manifests. */
  function Missing(apps: seq<App>, names: set<string>): seq<(string, string)> {
    if apps == [] then []
    else Missing(apps[..|apps| - 1], names) + MissingOf(apps[|apps| - 1].name, apps[|apps| - 1].secrets, names)
  }

  /** The apps that declare each name that has a value. */
  ghost predicate OwnersOf(owners: map<string, seq<string>>, apps: seq<App>, names: set<string>) {
    && (forall n :: n in owners ==> n in names && Declared(apps, n))
    && (forall n :: n in names && Declared(apps, n) ==> n in owners)
    && (forall n, a :: n in owners && a in owners[n] ==> Declares(apps, a, n))
    && (forall n, a :: n in owners && Declares(apps, a, n) ==> a in owners[n])
  }

  lemma OneAppMore(apps: seq<App>, app: App, a: string, n: string)
    ensures Declares(apps + [app], a, n) <==> Declares(apps, a, n) || (a == app.name && n in app.secrets)
    ensures Declared(apps + [app], n) <==> Declared(apps, n) || n in app.secrets
  {
    var more := apps + [app];
    assert more[|apps|] == app;
    if Declares(apps, a, n) {
      var i :| 0 <= i < |apps| && apps[i].name == a && n in apps[i].secrets;
      assert more[i] == apps[i];
    }
    if Declared(apps, n) {
      var i :| 0 <= i < |apps| && n in apps[i].secrets;
      assert more[i] == apps[i];
    }
  }

  lemma SameOwners(owners: map<string, seq<string>>, apps: seq<App>, app: App, names: set<string>)
    requires OwnersOf(owners, apps, names) && forall n :: n in app.secrets ==> n !in names
    ensures OwnersOf(owners, apps + [app], names)
  {
    forall a, n ensures Declares(apps + [app], a, n) <==> Declares(apps, a, n) || (a == app.name && n in app.secrets) {
      OneAppMore(apps, app, a, n);
    }
    forall n ensures Declared(apps + [app], n) <==> Declared(apps, n) || n in app.secrets {
      OneAppMore(apps, app, app.name, n);
    }
    hide Declares, Declared;
  }

  /** One more declaration of `app`. */
  lemma OneOwnerMore(owners: map<string, seq<string>>, apps: seq<App>, app: string, done: seq<string>, name: string, names: set<string>)
    requires OwnersOf(owners, apps + [App(app, done)], names)
    ensures var after := apps + [App(app, done + [name])];
      && (name !in names ==> OwnersOf(owners, after, names))
      && (name in names ==> OwnersOf(owners[name := (if name in owners then owners[name] else []) + [app]], after, names))
  {
    var before, after := apps + [App(app, done)], apps + [App(app, done + [name])];
    forall a, n ensures Declares(after, a, n) <==> Declares(before, a, n) || (a == app && n == name) {
      OneAppMore(apps, App(app, done), a, n);
      OneAppMore(apps, App(app, done + [name]), a, n);
    }
    forall n ensures Declared(after, n) <==> Declared(before, n) || n == name {
      OneAppMore(apps, App(app, done), app, n);
      OneAppMore(apps, App(app, done + [name]), app, n);
    }
    assert !Declared(before, name) ==> forall a :: !Declares(before, a, name);
    hide Declares, Declared;
  }

  /** Who declared each name that has a value, and the declarations that have none. */
  method CollectOwners(names: set<string>, apps: seq<App>) returns (declaredBy: map<string, seq<string>>, missing: seq<(string, string)>)
    ensures OwnersOf(declaredBy, apps, names) && missing == Missing(apps, names)
  {
    declaredBy, missing := map[], [];
    hide OwnersOf;
    assert OwnersOf(declaredBy, apps[..0], names) by { NoOwners(names); }
    for i := 0 to |apps|
      invariant OwnersOf(declaredBy, apps[..i], names) && missing == Missing(apps[..i], names)
    {
      var app := apps[i];
      ghost var before := missing;
      SameOwners(declaredBy, apps[..i], App(app.name, app.secrets[..0]), names);
      for j := 0 to |app.secrets|
        invariant OwnersOf(declaredBy, apps[..i] + [App(app.name, app.secrets[..j])], names)
        invariant missing == before + MissingOf(app.name, app.secrets[..j], names)
      {
        var name := app.secrets[j];
        OneOwnerMore(declaredBy, apps[..i], app.name, app.secrets[..j], name, names);
        assert app.secrets[..j + 1] == app.secrets[..j] + [name];
        assert app.secrets[..j + 1][..j] == app.secrets[..j];
        if name !in names {
          missing := missing + [(app.name, name)];
        } else {
          var owners := if name in declaredBy then declaredBy[name] else [];
          declaredBy := declaredBy[name := owners + [app.name]];
        }
      }
      assert app.secrets[..|app.secrets|] == app.secrets;
      assert apps[..i + 1] == apps[..i] + [app] && apps[..i + 1][..i] == apps[..i];
    }
    assert apps[..|apps|] == apps;
  }

  lemma NoOwners(names: set<string>)
    ensures OwnersOf(map[], [], names)
  {
  }

  /** A secret some app declares goes to exactly the apps that declare it, and leaves the shared
      file; any other stays in it. */
  ghost predicate Delivered(shared: map<string, string>, perApp: map<string, map<string, string>>, secret: seq<Entry>, apps: seq<App>) {
    && (forall n :: n in shared <==> n in Names(secret) && !Declared(apps, n))
    && (forall a, n :: HasSecret(perApp, a, n) <==> n in Names(secret) && Declares(apps, a, n))
    && (forall a :: a in perApp ==> exists n :: HasSecret(perApp, a, n))
    && forall i :: 0 <= i < |secret| ==>
      && (secret[i].name in shared ==> shared[secret[i].name] == secret[i].value)
      && (forall a :: HasSecret(perApp, a, secret[i].name) ==> SecretOf(perApp, a, secret[i].name) == secret[i].value)
  }

  predicate HasSecret(perApp: map<string, map<string, string>>, a: string, n: string) {
    a in perApp && n in perApp[a]
  }

  function SecretOf(perApp: map<string, map<string, string>>, a: string, n: string): string {
    if HasSecret(perApp, a, n) then perApp[a][n] else ""
  }

  function Give(perApp: map<string, map<string, string>>, owner: string, e: Entry): map<string, map<string, string>> {
    perApp[owner := (if owner in perApp then perApp[owner] else map[])[e.name := e.value]]
  }

  function GiveAll(perApp: map<string, map<string, string>>, owners: seq<string>, e: Entry): map<string, map<string, string>> {
    if owners == [] then perApp else Give(GiveAll(perApp, owners[..|owners| - 1], e), owners[|owners| - 1], e)
  }

  /** Splits a container's secrets by the apps' declarations. */
  method PartitionSecretsPerApp(secret: seq<Entry>, apps: seq<App>)
    returns (shared: map<string, string>, perApp: map<string, map<string, string>>, missing: seq<(string, string)>)
    requires DistinctNames(secret)
    ensures Delivered(shared, perApp, secret, apps) && missing == Missing(apps, Names(secret))
  {
    var declaredBy, without := CollectOwners(Names(secret), apps);
    shared, perApp, missing := map[], map[], without;
    hide Delivered, OwnersOf;
    assert Delivered(shared, perApp, secret[..0], apps) by { NothingDelivered(apps); }
    for i := 0 to |secret|
      invariant Delivered(shared, perApp, secret[..i], apps)
    {
      var e := secret[i];
      NamesGrow(secret, i);
      assert secret[..i + 1] == secret[..i] + [e];
      OneSecretMore(shared, perApp, secret[..i], apps, e, declaredBy, Names(secret));
      if e.name !in declaredBy {
        shared := shared[e.name := e.value];
      } else {
        var owners := declaredBy[e.name];
        ghost var before := perApp;
        for j := 0 to |owners|
          invariant perApp == GiveAll(before, owners[..j], e)
        {
          assert owners[..j + 1][..j] == owners[..j];
          perApp := perApp[owners[j] := (if owners[j] in perApp then perApp[owners[j]] else map[])[e.name := e.value]];
        }
        assert owners[..|owners|] == owners;
      }
    }
    assert secret[..|secret|] == secret;
  }

  lemma NothingDelivered(apps: seq<App>)
    ensures Delivered(map[], map[], [], apps)
  {
  }

  lemma GivenToOne(perApp: map<string, map<string, string>>, owner: string, e: Entry)
    ensures forall a, n :: HasSecret(Give(perApp, owner, e), a, n) <==> HasSecret(perApp, a, n) || (a == owner && n == e.name)
    ensures forall a, n :: SecretOf(Give(perApp, owner, e), a, n) == if a == owner && n == e.name then e.value else SecretOf(perApp, a, n)
    ensures forall a :: a in Give(perApp, owner, e) ==> a in perApp || a == owner
  {
  }

  lemma {:induction false} GivenTo(perApp: map<string, map<string, string>>, owners: seq<string>, e: Entry)
    ensures forall a, n :: HasSecret(GiveAll(perApp, owners, e), a, n) <==> HasSecret(perApp, a, n) || (a in owners && n == e.name)
    ensures forall a, n :: SecretOf(GiveAll(perApp, owners, e), a, n) == if a in owners && n == e.name then e.value else SecretOf(perApp, a, n)
    ensures forall a :: a in GiveAll(perApp, owners, e) ==> a in perApp || a in owners
  {
    if owners != [] {
      var before, owner := owners[..|owners| - 1], owners[|owners| - 1];
      GivenTo(perApp, before, e);
      GivenToOne(GiveAll(perApp, before, e), owner, e);
      assert forall a :: a in owners <==> a in before || a == owner;
      hide HasSecret, SecretOf, Give;
    }
  }

  lemma OneSecretMore(shared: map<string, string>, perApp: map<string, map<string, string>>, secret: seq<Entry>, apps: seq<App>,
                      e: Entry, declaredBy: map<string, seq<string>>, names: set<string>)
    requires Delivered(shared, perApp, secret, apps) && OwnersOf(declaredBy, apps, names) && e.name in names
    requires e.name !in Names(secret) && Names(secret + [e]) == Names(secret) + {e.name}
    ensures e.name !in declaredBy ==> Delivered(shared[e.name := e.value], perApp, secret + [e], apps)
    ensures e.name in declaredBy ==> Delivered(shared, GiveAll(perApp, declaredBy[e.name], e), secret + [e], apps)
  {
    assert forall i :: 0 <= i < |secret| ==> secret[i].name in Names(secret);
    assert !Declared(apps, e.name) ==> forall a :: !Declares(apps, a, e.name);
    hide Declares, Declared, Names, GiveAll, HasSecret, SecretOf;
    if e.name in declaredBy {
      OwnedSecretMore(shared, perApp, secret, apps, e, declaredBy[e.name]);
    } else {
      assert forall a :: !HasSecret(perApp, a, e.name);
    }
  }

  lemma OwnedSecretMore(shared: map<string, string>, perApp: map<string, map<string, string>>, secret: seq<Entry>, apps: seq<App>,
                        e: Entry, owners: seq<string>)
    requires Delivered(shared, perApp, secret, apps) && Declared(apps, e.name)
    requires forall a :: a in owners <==> Declares(apps, a, e.name)
    requires forall i :: 0 <= i < |secret| ==> secret[i].name != e.name
    requires e.name !in Names(secret) && Names(secret + [e]) == Names(secret) + {e.name}
    ensures Delivered(shared, GiveAll(perApp, owners, e), secret + [e], apps)
  {
    GivenTo(perApp, owners, e);
    var after := GiveAll(perApp, owners, e);
    hide Declares, Declared, Names, GiveAll, HasSecret, SecretOf;
    forall a | a in after ensures exists n :: HasSecret(after, a, n) {
      if a in owners {
        assert HasSecret(after, a, e.name);
      } else {
        var n :| HasSecret(perApp, a, n);
        assert HasSecret(after, a, n);
      }
    }
  }
}
