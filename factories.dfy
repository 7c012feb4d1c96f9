/** The process-wide content-factory table of TinyHUD (`hudFactories`) and
    the registration calls that fill it. */
module Factories {
  import opened Common
  import opened Content

  /** The content a HUD built for `key` receives: what the factory registered
      under the key makes of the payload, or nothing for an unregistered key. */
  function Lookup(factories: map<string, Factory>, key: string, context: Option<Json>): Option<ContentView> {
    if key in factories then factories[key](context) else None
  }

  /** The table after one bundled content view class has registered its keys. */
  function Bind(factories: map<string, Factory>, kind: ContentKind): map<string, Factory> {
    match kind
    case TextKind => factories[PlainText.rawValue := PlainTextFactory]
    case ImageTextKind =>
      factories[Success.rawValue := SuccessFactory]
               [Failure.rawValue := FailureFactory]
               [Info.rawValue := InfoFactory]
  }

  /** The table after each kind in `kinds` has registered, in order. */
  function BindAll(factories: map<string, Factory>, kinds: seq<ContentKind>): map<string, Factory>
    decreases |kinds|
  {
    if kinds == [] then factories
    else Bind(BindAll(factories, kinds[..|kinds| - 1]), kinds[|kinds| - 1])
  }

  class Registry {
    var factories: map<string, Factory>

    constructor ()
      ensures factories == map[]
    {
      factories := map[];
    }

    /** `TinyHUD.register(_:_:)`: last writer wins. */
    method Register(key: string, factory: Factory)
      modifies this
      ensures factories == old(factories)[key := factory]
    {
      factories := factories[key := factory];
    }

    /** `registered(hud:)` of one bundled content view class. */
    method RegisterKind(kind: ContentKind)
      modifies this
      ensures factories == Bind(old(factories), kind)
    {
      match kind
      case TextKind =>
        Register(PlainText.rawValue, PlainTextFactory);
      case ImageTextKind =>
        Register(Success.rawValue, SuccessFactory);
        Register(Failure.rawValue, FailureFactory);
        Register(Info.rawValue, InfoFactory);
    }

    /** `TinyHUD.register(_:)`: every class in the list registers, in order. */
    method RegisterKinds(kinds: seq<ContentKind>)
      modifies this
      ensures factories == BindAll(old(factories), kinds)
    {
      var i := 0;
      while i < |kinds|
        invariant 0 <= i <= |kinds|
        invariant factories == BindAll(old(factories), kinds[..i])
      {
        assert kinds[..i + 1][..i] == kinds[..i];
        RegisterKind(kinds[i]);
        i := i + 1;
      }
      assert kinds[..i] == kinds;
    }
  }

  /** Registering overwrites the key's factory and leaves every other key's
      lookup as it was. */
  lemma RegisterOverwrites(factories: map<string, Factory>, key: string, factory: Factory,
                           other: string, context: Option<Json>)
    ensures Lookup(factories[key := factory], key, context) == factory(context)
    ensures other != key ==> Lookup(factories[key := factory], other, context) == Lookup(factories, other, context)
  {
  }

  /** A key nobody registered yields no content. */
  lemma UnregisteredKeyYieldsNothing(factories: map<string, Factory>, key: string, context: Option<Json>)
    requires key !in factories
    ensures Lookup(factories, key, context) == None
  {
  }

  /** After `register([TinyHUDContentView_Text, TinyHUDContentView_Image_Text])`,
      whatever the table held before: `plainText` builds a text view holding
      the payload's string; `success` and `failure` build vertical icon+text
      views and `info` a horizontal one, each holding the string or "";
      every other key is looked up as before. */
  lemma {:induction false} StandardBindings(factories: map<string, Factory>, other: string, context: Option<Json>)
    ensures var m := BindAll(factories, [TextKind, ImageTextKind]);
      && Lookup(m, "plainText", context) == Some(TextView(StringValue(context)))
      && Lookup(m, "success", context) == Some(ImageTextView(TextOrEmpty(context), "check", Vertical))
      && Lookup(m, "failure", context) == Some(ImageTextView(TextOrEmpty(context), "wrong", Vertical))
      && Lookup(m, "info", context) == Some(ImageTextView(TextOrEmpty(context), "information", Horizontal))
      && (other !in {"plainText", "success", "failure", "info"} ==>
            Lookup(m, other, context) == Lookup(factories, other, context))
  {
    var kinds := [TextKind, ImageTextKind];
    assert kinds[..1] == [TextKind];
    assert [TextKind][..0] == [];
    var m := BindAll(factories, kinds);
    assert m == Bind(Bind(factories, TextKind), ImageTextKind);
  }
}
