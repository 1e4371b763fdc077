/**
 * django_outbox_pattern/decorators.py: the `publish` class decorator, whose
 * `save` stores the instance and then one outbox record per `Config`, in one
 * transaction.
 */
module Decorators {
  import opened Wrappers
  import opened Values
  import opened Dicts
  import opened Choices
  import opened Models
  import opened Tables
  import opened Store

  /** One destination to publish to, with the optional field list, serializer method name and version. */
  datatype Config = Config(
    destination: string,
    fields: Option<seq<string>>,
    serializer: Option<string>,
    version: Option<string>)

  /** A `Config` with every optional part left at its default `None`. */
  function ConfigFor(destination: string): (c: Config)
    ensures c.destination == destination && c.fields.None? && c.serializer.None? && c.version.None?
  {
    Config(destination, None, None, None)
  }

  /**
   * A model instance as the serializer and `getattr` see it: its primary key,
   * its serialized fields in declaration order, and the document each of its
   * zero-argument methods returns.
   */
  datatype Instance = Instance(pk: Json, fields: Dict<Json>, methods: Dict<Json>)

  /** Whether the serializer keeps field `k`: all fields when no list is given. */
  predicate Selects(fields: Option<seq<string>>, k: string) {
    fields.None? || k in fields.value
  }

  /** `data["fields"]` of `serialize("json", [obj], fields=fields)`: the selected fields, in order. */
  function Serialized(d: Dict<Json>, fields: Option<seq<string>>): Dict<Json> {
    if d == [] then []
    else if Selects(fields, d[0].0) then [d[0]] + Serialized(d[1..], fields)
    else Serialized(d[1..], fields)
  }

  /** A field is serialized with its own value exactly when it is selected. */
  lemma {:induction false} SerializedGet(d: Dict<Json>, fields: Option<seq<string>>, k: string)
    ensures Get(Serialized(d, fields), k) == if Selects(fields, k) then Get(d, k) else None
  {
    if d != [] {
      SerializedGet(d[1..], fields, k);
    }
  }

  /** The serialized fields of a dictionary form a dictionary. */
  lemma {:induction false} SerializedWf(d: Dict<Json>, fields: Option<seq<string>>)
    requires Wf(d)
    ensures Wf(Serialized(d, fields))
  {
    if d != [] {
      SerializedWf(d[1..], fields);
      SerializedGet(d[1..], fields, d[0].0);
      if Selects(fields, d[0].0) {
        assert Serialized(d, fields)[1..] == Serialized(d[1..], fields);
      }
    }
  }

  /** The field projection `_serializer` builds: `{"id": pk}` updated with the serialized fields. */
  function Projection(o: Instance, fields: Option<seq<string>>): Dict<Json> {
    Update([("id", o.pk)], Serialized(o.fields, fields))
  }

  /**
   * The projection holds each selected field with its value and `id` with the
   * primary key (unless a selected field is itself called `id`), and nothing else.
   */
  lemma ProjectionMeaning(o: Instance, fields: Option<seq<string>>, k: string)
    requires Wf(o.fields)
    ensures Get(Projection(o, fields), k) ==
            if Selects(fields, k) && HasKey(o.fields, k) then Get(o.fields, k)
            else if k == "id" then Some(o.pk)
            else None
  {
    SerializedWf(o.fields, fields);
    GetUpdate([("id", o.pk)], Serialized(o.fields, fields), k);
    SerializedGet(o.fields, fields, k);
  }

  /** `_serializer`: start from the primary key and assign each serialized field in turn. */
  method Serializer(o: Instance, fields: Option<seq<string>>) returns (ret: Dict<Json>)
    ensures ret == Projection(o, fields)
  {
    var data := Serialized(o.fields, fields);
    ret := [("id", o.pk)];
    for i := 0 to |data|
      invariant ret == Update([("id", o.pk)], data[..i])
    {
      UpdateSnoc([("id", o.pk)], data[..i], data[i].0, data[i].1);
      assert data[..i + 1] == data[..i] + [(data[i].0, data[i].1)];
      ret := Put(ret, data[i].0, data[i].1);
    }
    assert data[..|data|] == data;
  }

  /** Whether `_get_body` calls the named serializer method: one is named and the instance has it. */
  predicate UsesMethod(o: Instance, serializer: Option<string>) {
    serializer.Some? && HasKey(o.methods, serializer.value)
  }

  /** The body `_get_body` selects. */
  function Body(o: Instance, fields: Option<seq<string>>, serializer: Option<string>): Json {
    if UsesMethod(o, serializer) then Get(o.methods, serializer.value).value
    else JObject(Projection(o, fields))
  }

  /** `_get_body`: the named method's document when the instance has it, else the field projection. */
  method GetBody(o: Instance, fields: Option<seq<string>>, serializer: Option<string>) returns (body: Json)
    ensures body == Body(o, fields, serializer)
  {
    if serializer.Some? && HasKey(o.methods, serializer.value) {
      body := Get(o.methods, serializer.value).value;
    } else {
      var ret := Serializer(o, fields);
      body := JObject(ret);
    }
  }

  /**
   * A serializer method the instance has decides the body whatever the field
   * list; a missing or unnamed one falls back to the projection, `fields` and all.
   */
  lemma BodyMeaning(o: Instance, fields: Option<seq<string>>, serializer: Option<string>, name: string)
    ensures serializer == Some(name) && HasKey(o.methods, name) ==>
              Some(Body(o, fields, serializer)) == Get(o.methods, name)
    ensures serializer.None? || !HasKey(o.methods, serializer.value) ==>
              Body(o, fields, serializer) == JObject(Projection(o, fields))
  {
  }

  /** The outbox record `_create_published` saves for one config, with the key it draws. */
  function Record(c: Config, o: Instance, id: string, now: Time, requestId: Option<string>): Published {
    SavedForm(NewPublished(id, c.destination, Body(o, c.fields, c.serializer), c.version, [], now), now, requestId)
  }

  /** The record goes to the config's destination, suffixed by a non-empty version, and is scheduled. */
  lemma RecordMeaning(c: Config, o: Instance, id: string, now: Time, requestId: Option<string>)
    ensures var p := Record(c, o, id, now, requestId);
            p.id == id && p.version == c.version && p.body == Body(o, c.fields, c.serializer) &&
            p.destination == (if Truthy(c.version) then c.destination + "." + c.version.value else c.destination) &&
            p.status == Schedule && p.retry == 0 && p.added == now && p.expiresAt == OneMoreDay(now) && !p.adding
  {
  }

  /** How a save builds the record for one config from the key it draws. */
  type Maker = (Config, string) -> Published

  /** `_create_published` for the instance `o`, at `now`, within a request carrying `requestId`. */
  function Creation(o: Instance, now: Time, requestId: Option<string>): Maker {
    (c: Config, id: string) => Record(c, o, id, now, requestId)
  }

  /** `make` builds the records `_create_published` saves for `o` (stated per record, at each `Record` term). */
  ghost predicate Makes(make: Maker, o: Instance, now: Time, requestId: Option<string>) {
    forall c, id {:trigger Record(c, o, id, now, requestId)} :: make(c, id) == Record(c, o, id, now, requestId)
  }

  lemma CreationMakes(o: Instance, now: Time, requestId: Option<string>)
    ensures Makes(Creation(o, now, requestId), o, now, requestId)
  {
  }

  /** Every record is keyed by the key it was built with. */
  ghost predicate KeyedBy(make: Maker) {
    forall c, id :: make(c, id).id == id
  }

  lemma CreationKeyed(o: Instance, now: Time, requestId: Option<string>)
    ensures KeyedBy(Creation(o, now, requestId))
  {
    forall c, id
      ensures Creation(o, now, requestId)(c, id).id == id
    {
      RecordMeaning(c, o, id, now, requestId);
    }
  }

  /** The records for the first `n` configs, the `i`-th keyed by `uuid4(start + i)`. */
  function Records(cs: seq<Config>, make: Maker, uuid4: nat -> string, start: nat, n: nat): seq<Published>
    requires n <= |cs|
  {
    if n == 0 then []
    else Records(cs, make, uuid4, start, n - 1) + [make(cs[n - 1], uuid4(start + (n - 1)))]
  }

  /** One record per config, in config order. */
  lemma {:induction false} RecordsMeaning(cs: seq<Config>, make: Maker, uuid4: nat -> string, start: nat, n: nat)
    requires n <= |cs|
    ensures |Records(cs, make, uuid4, start, n)| == n
    ensures forall i :: 0 <= i < n ==> Records(cs, make, uuid4, start, n)[i] == make(cs[i], uuid4(start + i))
  {
    if n > 0 {
      RecordsMeaning(cs, make, uuid4, start, n - 1);
    }
  }

  /** A key none of the first `n` draws produced is not among the records' keys. */
  lemma {:induction false} RecordsKeys(cs: seq<Config>, make: Maker, uuid4: nat -> string, start: nat, n: nat,
                                       key: string)
    requires n <= |cs| && KeyedBy(make)
    requires forall j :: start <= j < start + n ==> uuid4(j) != key
    ensures key !in Ids(Records(cs, make, uuid4, start, n), PublishedRow)
  {
    if n > 0 {
      var init := Records(cs, make, uuid4, start, n - 1);
      var x := make(cs[n - 1], uuid4(start + (n - 1)));
      RecordsKeys(cs, make, uuid4, start, n - 1, key);
      IdsConcat(init, [x], PublishedRow);
    }
  }

  /** The outbox table after the records of the first `n` configs are saved one after the other. */
  function SavedUpTo(rows: seq<Published>, cs: seq<Config>, make: Maker, uuid4: nat -> string, start: nat,
                     n: nat): seq<Published>
    requires n <= |cs|
  {
    if n == 0 then rows
    else Upsert(SavedUpTo(rows, cs, make, uuid4, start, n - 1), PublishedRow, make(cs[n - 1], uuid4(start + (n - 1))))
  }

  /** Keys `uuid4` hands out for draws `start` .. `start + n - 1` that are distinct and new to the table. */
  ghost predicate FreshKeys(uuid4: nat -> string, start: nat, n: nat, rows: seq<Published>) {
    (forall i, j :: start <= i < j < start + n ==> uuid4(i) != uuid4(j)) &&
    (forall i :: start <= i < start + n ==> uuid4(i) !in Ids(rows, PublishedRow))
  }

  /** With fresh keys, saving the records of the first `n` configs appends them, in order. */
  lemma {:induction false} SavedUpToFresh(rows: seq<Published>, cs: seq<Config>, make: Maker, uuid4: nat -> string,
                                          start: nat, n: nat)
    requires n <= |cs| && KeyedBy(make) && FreshKeys(uuid4, start, n, rows)
    ensures SavedUpTo(rows, cs, make, uuid4, start, n) == rows + Records(cs, make, uuid4, start, n)
  {
    if n > 0 {
      var init := Records(cs, make, uuid4, start, n - 1);
      var key := uuid4(start + (n - 1));
      var x := make(cs[n - 1], key);
      SavedUpToFresh(rows, cs, make, uuid4, start, n - 1);
      RecordsKeys(cs, make, uuid4, start, n - 1, key);
      IdsConcat(rows, init, PublishedRow);
      assert PublishedRow(x).id == key && key !in Ids(rows, PublishedRow);
      UpsertFresh(rows + init, PublishedRow, x);
      assert (rows + init) + [x] == rows + (init + [x]);
    }
  }

  /**
   * With fresh keys, a save with `stop=False` appends exactly one record per
   * config, in config order, each keyed by its draw, to its config's (versioned)
   * destination, with its config's body, scheduled.
   */
  lemma PublishedFor(rows: seq<Published>, cs: seq<Config>, o: Instance, uuid4: nat -> string, start: nat,
                     now: Time, requestId: Option<string>)
    requires FreshKeys(uuid4, start, |cs|, rows)
    ensures var ps := Records(cs, Creation(o, now, requestId), uuid4, start, |cs|);
            SavedUpTo(rows, cs, Creation(o, now, requestId), uuid4, start, |cs|) == rows + ps && |ps| == |cs| &&
            forall i :: 0 <= i < |cs| ==>
              ps[i].id == uuid4(start + i) &&
              ps[i].destination == (if Truthy(cs[i].version) then cs[i].destination + "." + cs[i].version.value
                                    else cs[i].destination) &&
              ps[i].body == Body(o, cs[i].fields, cs[i].serializer) &&
              ps[i].status == Schedule
  {
    var make := Creation(o, now, requestId);
    var ps := Records(cs, make, uuid4, start, |cs|);
    CreationKeyed(o, now, requestId);
    SavedUpToFresh(rows, cs, make, uuid4, start, |cs|);
    RecordsMeaning(cs, make, uuid4, start, |cs|);
    forall i | 0 <= i < |cs|
      ensures ps[i].id == uuid4(start + i)
      ensures ps[i].destination == (if Truthy(cs[i].version) then cs[i].destination + "." + cs[i].version.value
                                    else cs[i].destination)
      ensures ps[i].body == Body(o, cs[i].fields, cs[i].serializer)
      ensures ps[i].status == Schedule
    {
      RecordMeaning(cs[i], o, uuid4(start + i), now, requestId);
    }
  }

  /** Saving the records of one more config is one more `save`. */
  lemma SavedUpToStep(rows: seq<Published>, cs: seq<Config>, make: Maker, uuid4: nat -> string, start: nat,
                      n: nat, key: string)
    requires n < |cs| && key == uuid4(start + n)
    ensures SavedUpTo(rows, cs, make, uuid4, start, n + 1) ==
            Upsert(SavedUpTo(rows, cs, make, uuid4, start, n), PublishedRow, make(cs[n], key))
  {
  }

  /** The model class `publish(configs)` returns, around one instance of the decorated model. */
  class PublishModel {
    const db: Database
    const configs: seq<Config>
    /** The decorated model's own `save`, as it changes the instance before it is stored. */
    const ownSave: Instance -> Instance
    /** `uuid.uuid4()` returns `uuid4(drawn)` and advances `drawn`. */
    const uuid4: nat -> string
    var drawn: nat
    var instance: Instance

    constructor(db: Database, configs: seq<Config>, ownSave: Instance -> Instance, uuid4: nat -> string,
                instance: Instance)
      ensures this.db == db && this.configs == configs && this.ownSave == ownSave && this.uuid4 == uuid4
      ensures this.instance == instance && drawn == 0
    {
      this.db := db;
      this.configs := configs;
      this.ownSave := ownSave;
      this.uuid4 := uuid4;
      this.instance := instance;
      drawn := 0;
    }

    /** `_create_published(self, *config)`: build the body, then save a new outbox record. */
    method CreatePublished(c: Config, now: Time, requestId: Option<string>, ghost make: Maker) returns (id: string)
      requires db.Valid() && Makes(make, instance, now, requestId)
      modifies this, db
      ensures id == uuid4(old(drawn))
      ensures db.published == Upsert(old(db.published), PublishedRow, make(c, id))
      ensures drawn == old(drawn) + 1 && instance == old(instance)
      ensures db.received == old(db.received) && db.up == old(db.up)
      ensures db.Valid()
    {
      var body := GetBody(instance, c.fields, c.serializer);
      id := uuid4(drawn);
      drawn := drawn + 1;
      var p := NewPublished(id, c.destination, body, c.version, [], now);
      var q := db.SavePublished(p, now, requestId);
      assert make(c, id) == Record(c, instance, id, now, requestId);
    }

    /** The loop of the wrapped `save`: one outbox record per config, in config order. */
    method CreateAll(now: Time, requestId: Option<string>, ghost make: Maker)
      requires db.Valid() && Makes(make, instance, now, requestId)
      modifies this, db
      ensures db.published == SavedUpTo(old(db.published), configs, make, uuid4, old(drawn), |configs|)
      ensures drawn == old(drawn) + |configs| && instance == old(instance)
      ensures db.received == old(db.received) && db.up == old(db.up)
      ensures db.Valid()
    {
      ghost var p0, d0 := db.published, drawn;
      for i := 0 to |configs|
        invariant db.Valid() && instance == old(instance)
        invariant drawn == d0 + i
        invariant db.published == SavedUpTo(p0, configs, make, uuid4, d0, i)
        invariant db.received == old(db.received) && db.up == old(db.up)
      {
        var id := CreatePublished(configs[i], now, requestId, make);
        SavedUpToStep(p0, configs, make, uuid4, d0, i, id);
      }
    }

    /** The wrapped `save`: the model's own save, then, unless `stop`, one outbox record per config in order. */
    method Save(stop: bool, now: Time, requestId: Option<string>)
      requires db.Valid()
      modifies this, db
      ensures instance == ownSave(old(instance))
      ensures stop ==> db.published == old(db.published) && drawn == old(drawn)
      ensures !stop ==>
                db.published == SavedUpTo(old(db.published), configs, Creation(instance, now, requestId), uuid4, old(drawn), |configs|) &&
                drawn == old(drawn) + |configs|
      ensures db.received == old(db.received) && db.up == old(db.up)
      ensures db.Valid()
    {
      instance := ownSave(instance);
      if !stop {
        CreationMakes(instance, now, requestId);
        CreateAll(now, requestId, Creation(instance, now, requestId));
      }
    }
  }
}
