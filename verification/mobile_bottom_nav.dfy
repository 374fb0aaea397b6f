/**
  * The mobile bottom navigation: which tab is highlighted for the current
  * path, and the chat flag that opens and closes the embedded assistant.
  */
module MobileBottomNav {
  import opened Builtins
  import ShoppingAssistant

  const Home := "/"
  const Wishlist := "/user/wishlist"
  const Profile := "/user"
  const Login := "/auth"

  /** `isActive(path)` for the current `pathname`. */
  predicate IsActive(pathname: string, path: string) {
    if path == "/" && pathname == "/" then true
    else if path != "/" && path <= pathname then true
    else false
  }

  /** The home tab is highlighted on the root path only. */
  lemma HomeOnlyAtRoot(pathname: string)
    ensures IsActive(pathname, Home) <==> pathname == "/"
  {
  }

  /** Any other tab is highlighted exactly on the paths that start with its own. */
  lemma OtherTabsByPrefix(pathname: string, path: string)
    requires path != "/"
    ensures IsActive(pathname, path) <==> |path| <= |pathname| && pathname[..|path|] == path
  {
  }

  /**
    * Prefix matching highlights two tabs at once: under the wishlist both the
    * wishlist and the profile tab are active. On the root path only home is.
    */
  lemma WishlistAlsoHighlightsProfile(pathname: string)
    ensures IsActive(pathname, Wishlist) ==> IsActive(pathname, Profile)
    ensures IsActive(Wishlist, Wishlist) && IsActive(Wishlist, Profile) && !IsActive(Wishlist, Home)
    ensures IsActive("/", Home) && !IsActive("/", Wishlist) && !IsActive("/", Profile) && !IsActive("/", Login)
  {
    if IsActive(pathname, Wishlist) {
      assert pathname[..|Profile|] == Wishlist[..|Profile|];
    }
  }

  /** The bar and the assistant it renders in mobile mode, closed by the bar's callback. */
  class Nav {
    var isChatOpen: bool
    const assistant: ShoppingAssistant.Widget

    /** The assistant is the mobile one, given the chat flag as its `isOpen` and a close callback. */
    ghost predicate Valid()
      reads this, assistant
    {
      && assistant.isMobile
      && assistant.hasOnClose
      && assistant.externalIsOpen == Some(isChatOpen)
      && assistant.Valid()
    }

    constructor()
      ensures Valid() && fresh(assistant)
      ensures !isChatOpen && !assistant.IsOpen()
    {
      isChatOpen := false;
      assistant := new ShoppingAssistant.Widget(true, Some(false), true);
    }

    /** The chat button: `setIsChatOpen(true)`; the assistant then shows. */
    method OpenChat()
      requires Valid()
      modifies this, assistant
      ensures Valid()
      ensures isChatOpen && assistant.IsOpen()
      ensures assistant.messages == old(assistant.messages) && assistant.input == old(assistant.input)
      ensures assistant.isLoading == old(assistant.isLoading)
    {
      isChatOpen := true;
      assistant.externalIsOpen := Some(true);
    }

    /**
      * The assistant's close button: its `handleClose` calls the bar's
      * `onClose`, which clears the chat flag, and the assistant hides.
      */
    method CloseChat()
      requires Valid()
      modifies this, assistant
      ensures Valid()
      ensures !isChatOpen && !assistant.IsOpen()
      ensures assistant.messages == old(assistant.messages) && assistant.input == old(assistant.input)
      ensures assistant.isLoading == old(assistant.isLoading)
    {
      var calledOnClose := assistant.HandleClose();
      if calledOnClose {
        isChatOpen := false;
        assistant.externalIsOpen := Some(false);
      }
    }
  }
}
