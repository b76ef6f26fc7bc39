/**
 * The professional's settings: the profile form, the password form and the
 * guarded account deletion.  Each request is an outcome passed in; the
 * handlers return the notification they show.
 */
module SettingsPage {
  import opened Wrappers
  import opened Entities
  import AS = AuthStore

  const ProfileUpdated: string := "Profil mis à jour"
  const ProfileUpdateFailed: string := "Erreur lors de la mise à jour"
  const PasswordMismatch: string := "Les mots de passe ne correspondent pas"
  const PasswordChanged: string := "Mot de passe modifié"
  const PasswordChangeFailed: string := "Erreur lors du changement de mot de passe"
  const AccountDeleted: string := "Compte supprimé"
  const DeleteFailed: string := "Erreur lors de la suppression"

  /** The phrase that must be typed to confirm the deletion. */
  const DeletePhrase: string := "SUPPRIMER"

  /** The confirm button is enabled exactly when the phrase is typed as is and no deletion runs. */
  predicate DeleteEnabled(deleteText: string, deleting: bool) {
    deleteText == DeletePhrase && !deleting
  }

  /** The body of a password-change request. */
  datatype PasswordChange = PasswordChange(currentPassword: string, newPassword: string)

  /** The body of a profile-update request. */
  datatype ProfileUpdate = ProfileUpdate(name: string, email: string)

  /** The profile and password forms, which the account-deletion controls leave alone. */
  datatype Forms = Forms(
    name: string, email: string, savingProfile: bool,
    currentPassword: string, newPassword: string, confirmPassword: string, savingPassword: bool)

  class SettingsPage {
    var name: string
    var email: string
    var savingProfile: bool
    var currentPassword: string
    var newPassword: string
    var confirmPassword: string
    var savingPassword: bool
    var showDeleteConfirm: bool
    var deleteText: string
    var deleting: bool
    const auth: AS.AuthStore

    function CurrentForms(): Forms
      reads this
    {
      Forms(name, email, savingProfile, currentPassword, newPassword, confirmPassword, savingPassword)
    }

    /** The forms start from the logged-in profile, or empty without one. */
    constructor (auth: AS.AuthStore)
      ensures this.auth == auth
      ensures name == (if auth.professional.Some? then auth.professional.value.name else "")
      ensures email == (if auth.professional.Some? then auth.professional.value.email else "")
      ensures currentPassword == "" && newPassword == "" && confirmPassword == "" && deleteText == ""
      ensures !savingProfile && !savingPassword && !showDeleteConfirm && !deleting
    {
      this.auth := auth;
      name := if auth.professional.Some? then auth.professional.value.name else "";
      email := if auth.professional.Some? then auth.professional.value.email else "";
      savingProfile := false;
      currentPassword := "";
      newPassword := "";
      confirmPassword := "";
      savingPassword := false;
      showDeleteConfirm := false;
      deleteText := "";
      deleting := false;
    }

    /**
     * `handleUpdateProfile()`: sends the name and e-mail; on success the
     * returned profile is handed to the store's `updateProfessional`
     * (returned here as `handedOver`).  `savingProfile` ends false.
     */
    method HandleUpdateProfile(result: Outcome<Professional>)
      returns (request: ProfileUpdate, handedOver: Option<Professional>, notice: Notice)
      modifies this
      ensures request == ProfileUpdate(old(name), old(email))
      ensures result.Ok? ==> handedOver == Some(result.value) && notice == Success(ProfileUpdated)
      ensures result.Err? ==> handedOver.None? && notice == Error(MessageOr(result.failure, ProfileUpdateFailed))
      ensures !savingProfile
      ensures name == old(name) && email == old(email) && currentPassword == old(currentPassword) &&
        newPassword == old(newPassword) && confirmPassword == old(confirmPassword) &&
        savingPassword == old(savingPassword) && showDeleteConfirm == old(showDeleteConfirm) &&
        deleteText == old(deleteText) && deleting == old(deleting)
    {
      savingProfile := true;
      request := ProfileUpdate(name, email);
      match result {
        case Ok(updated) =>
          handedOver := Some(updated);
          notice := Success(ProfileUpdated);
        case Err(f) =>
          handedOver := None;
          notice := Error(MessageOr(f, ProfileUpdateFailed));
      }
      savingProfile := false;
    }

    /**
     * `handleChangePassword()`: a confirmation that differs from the new
     * password sends nothing and leaves `savingPassword` alone.  Otherwise
     * the current and new passwords are sent; success empties the three
     * fields, failure keeps them.  `savingPassword` ends false.
     */
    method HandleChangePassword(result: Outcome<()>) returns (request: Option<PasswordChange>, notice: Notice)
      modifies this
      ensures request.Some? <==> old(newPassword) == old(confirmPassword)
      ensures request.None? ==>
        notice == Error(PasswordMismatch) && savingPassword == old(savingPassword) &&
        currentPassword == old(currentPassword) && newPassword == old(newPassword) &&
        confirmPassword == old(confirmPassword)
      ensures request.Some? ==> request.value == PasswordChange(old(currentPassword), old(newPassword)) && !savingPassword
      ensures request.Some? && result.Ok? ==>
        notice == Success(PasswordChanged) &&
        currentPassword == "" && newPassword == "" && confirmPassword == ""
      ensures request.Some? && result.Err? ==>
        notice == Error(MessageOr(result.failure, PasswordChangeFailed)) &&
        currentPassword == old(currentPassword) && newPassword == old(newPassword) &&
        confirmPassword == old(confirmPassword)
      ensures name == old(name) && email == old(email) && savingProfile == old(savingProfile) &&
        showDeleteConfirm == old(showDeleteConfirm) && deleteText == old(deleteText) && deleting == old(deleting)
    {
      if newPassword != confirmPassword {
        request := None;
        notice := Error(PasswordMismatch);
        return;
      }
      savingPassword := true;
      request := Some(PasswordChange(currentPassword, newPassword));
      match result {
        case Ok(_) =>
          notice := Success(PasswordChanged);
          currentPassword := "";
          newPassword := "";
          confirmPassword := "";
        case Err(f) =>
          notice := Error(MessageOr(f, PasswordChangeFailed));
      }
      savingPassword := false;
    }

    /** "Supprimer mon compte": show the confirmation. */
    method OpenDeleteConfirm()
      modifies this
      ensures showDeleteConfirm && deleteText == old(deleteText) && deleting == old(deleting)
      ensures CurrentForms() == old(CurrentForms())
    {
      showDeleteConfirm := true;
    }

    /** Typing into the confirmation field. */
    method TypeDeleteText(text: string)
      modifies this
      ensures deleteText == text && showDeleteConfirm == old(showDeleteConfirm) && deleting == old(deleting)
      ensures CurrentForms() == old(CurrentForms())
    {
      deleteText := text;
    }

    /** "Annuler": hide the confirmation and forget what was typed. */
    method CancelDelete()
      modifies this
      ensures !showDeleteConfirm && deleteText == "" && deleting == old(deleting)
      ensures CurrentForms() == old(CurrentForms())
    {
      showDeleteConfirm := false;
      deleteText := "";
    }

    /**
     * `handleDeleteAccount()`: a successful deletion logs out (clearing the
     * session and its storage) and goes to the login page; a failure keeps
     * the session.  `deleting` ends false.
     */
    method HandleDeleteAccount(result: Outcome<()>) returns (nav: Navigation, notice: Notice)
      modifies this, auth, auth.storage
      ensures result.Ok? ==>
        nav == ToLogin && notice == Success(AccountDeleted) &&
        auth.Current() == AS.AfterLogout(old(auth.Current()))
      ensures result.Err? ==>
        nav == Stay && notice == Error(MessageOr(result.failure, DeleteFailed)) &&
        auth.Current() == old(auth.Current())
      ensures !deleting
      ensures showDeleteConfirm == old(showDeleteConfirm) && deleteText == old(deleteText)
      ensures CurrentForms() == old(CurrentForms())
    {
      deleting := true;
      match result {
        case Ok(_) =>
          auth.Logout();
          nav := ToLogin;
          notice := Success(AccountDeleted);
        case Err(f) =>
          nav := Stay;
          notice := Error(MessageOr(f, DeleteFailed));
      }
      deleting := false;
    }

    /**
     * A click on "Confirmer la suppression": a disabled button does
     * nothing, so no deletion is requested unless the phrase is typed
     * exactly and none is running.
     */
    method ClickConfirmDelete(result: Outcome<()>) returns (sent: bool, nav: Navigation, notice: Notice)
      modifies this, auth, auth.storage
      ensures sent <==> DeleteEnabled(old(deleteText), old(deleting))
      ensures !sent ==>
        nav == Stay && notice == Silent && auth.Current() == old(auth.Current()) && deleting == old(deleting)
      ensures sent && result.Ok? ==>
        nav == ToLogin && notice == Success(AccountDeleted) && auth.Current() == AS.AfterLogout(old(auth.Current()))
      ensures sent && result.Err? ==>
        nav == Stay && notice == Error(MessageOr(result.failure, DeleteFailed)) && auth.Current() == old(auth.Current())
      ensures sent ==> !deleting
      ensures showDeleteConfirm == old(showDeleteConfirm) && deleteText == old(deleteText)
      ensures CurrentForms() == old(CurrentForms())
    {
      sent := deleteText == DeletePhrase && !deleting;
      if !sent {
        nav, notice := Stay, Silent;
        return;
      }
      nav, notice := HandleDeleteAccount(result);
    }
  }
}
