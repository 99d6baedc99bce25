// The same as the firmware runs it, undisturbed.
module IdentityVault {
  import opened Wrappers
  import opened VaultLimiter

  class Device {
    var flash: Flash

    constructor ()
      ensures flash == Flash(None, None)
    {
      flash := Flash(None, None);
    }

    method TriesRead() returns (n: nat)
      ensures n == Stored(flash)
    {
      if flash.tries == None {
        return 0;
      }
      if |flash.tries.value| < 1 {
        return 0;
      }
      return flash.tries.value[0];
    }

    method TriesWrite(n: nat)
      modifies this
      ensures flash == old(flash).(tries := Some([n]))
    {
      flash := flash.(tries := Some([n]));
    }

    /** Opens the vault, counting the attempt before it is made. */
    method VaultOpen(code: string, works: bool) returns (isOpen: bool)
      requires flash.vault.Some?
      modifies this
      ensures (flash, isOpen) == Booted(old(flash), code, works)
    {
      var tried := TriesRead();
      if tried >= MAX_TRIES {
        return false;
      }
      TriesWrite(tried + 1);
      if flash.vault != Some(Sealed(code)) {
        var left := MAX_TRIES - tried - 1;
        if left == 0 {
          flash := flash.(vault := None);
        }
        return false;
      }
      if works {
        flash := flash.(tries := None);
      }
      return works;
    }

    method VaultSeal(code: string, works: bool) returns (isSealed: bool)
      modifies this
      ensures isSealed == works && flash == if works then old(flash).(vault := Some(Sealed(code))) else old(flash)
    {
      if works {
        flash := flash.(vault := Some(Sealed(code)));
      }
      return works;
    }

    /** A boot: opens the vault there is, or seals a fresh identity. */
    method BringupIdentity(code: string, works: bool) returns (identity: bool)
      modifies this
      ensures (flash, identity) == Booted(old(flash), code, works)
    {
      if flash.vault.Some? {
        identity := VaultOpen(code, works);
      } else {
        identity := VaultSeal(code, works);
      }
    }
  }
}
