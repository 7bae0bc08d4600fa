# Portfolio site with an admin dashboard, modelled in Dafny

The system is a single-page portfolio (hero, about, projects, activities,
skills, contact) whose content lives in a hosted realtime database under
`portfolio/…`, plus an admin area where a signed-in owner edits that content.
This project models the logic of its components as Dafny values, functions
and small classes, and proves what each promises:

- the hero typewriter, as a state machine of timer steps: one character per step, a full
  type-hold-delete cycle per role, wrapping around the role list;
- the admin draft editors (hero, projects, skills, education, activities,
  contact), their add/update/remove handlers, the save-time filters (blank
  roles, blank social links) and the upload gates (type and size alerts, the
  failure alerts, the fields a successful upload sets);
- the admin dashboard: the sign-in guard, the snapshot coercions, the
  `saving` flag and the save banner;
- the authentication context (error-code messages, sign-in and sign-up
  results), the theme context (dark class, stored preference), the
  background-music toggle and the contact form's simulated submission;
- the public views: which stored data or built-in defaults are shown, the
  avatar choice, the project cards, the skill cloud slugs, the timeline sides,
  the footer and dock links.

Every stored record is schema-less, so a field a component reads with a
fallback is an `Option` here, and `x || d` is written out (`Js.Or`,
`Js.OrList`). Uploads, the identity service, `play()` and sign-out are
parameters giving their outcome; timers are explicit event methods; `Date.now()`
is an `int` parameter. Where a component mutates state, a class holds that
state and each handler's `ensures` ties the new state to a pure step function,
whose properties are lemmas.

Files: `js.dfy` (JS conventions, `trim`), `lists.dfy` (remove-by-index, the
role filter), `content.dfy` (stored records), `uploads.dfy`, one file per
component (`hero.dfy`, `hero_avatar.dfy`, `hero_manager.dfy`, `dashboard.dfy`,
`projects_manager.dfy`, `skills_manager.dfy`, `activities_manager.dfy`,
`about_manager.dfy`, `contact_footer_manager.dfy`, `projects_view.dfy`,
`skills_view.dfy`, `about_view.dfy`, `contact.dfy`, `footer_dock.dfy`,
`footer.dfy`, `bgm.dfy`) and the two contexts (`auth.dfy`, `theme.dfy`).

## Model

| member | source | states |
|---|---|---|
| Js.TrimEmptyIffBlank | src/components/admin/ContactFooterManager.jsx:36 | `s.trim() === ''` holds exactly when every character of `s` is ECMAScript white space |
| Js.TrimShape | src/components/BgmToggle.jsx:17-18 | a trimmed string starts and ends with a non-space, is no longer than the input, and trimming is idempotent |
| Lists.RemoveAt | src/components/admin/ProjectsManager.jsx:31 | `filter((_, i) => i !== index)` drops exactly the element at an in-range index, keeping the order, and drops nothing for any other index |
| Lists.RemoveAtContents | src/components/admin/ProjectsManager.jsx:30-33 | removing shortens the list by one and the multiset loses exactly the removed element |
| Lists.AppendThenRemove | src/components/admin/ProjectsManager.jsx:10-33 | adding an item and removing it at its index restores the list |
| RoleFilter.KeepFilled | src/components/admin/HeroManager.jsx:108 | the kept roles are exactly the input roles that are non-empty after trimming, never more of them |
| RoleFilter.KeptMeansNotBlank | src/components/admin/HeroManager.jsx:108 | a role is dropped exactly when it is white space only |
| RoleFilter.KeepFilledConcat | src/components/admin/HeroManager.jsx:108 | the filter keeps the order: filtering a concatenation concatenates the filtered parts |
| RoleFilter.KeepFilledOfFilled | src/components/admin/HeroManager.jsx:108 | a list with no blank role passes unchanged |
| RoleFilter.KeepFilledIdempotent | src/components/admin/HeroManager.jsx:107-110 | filtering a saved role list again removes nothing |
| HeroRecord.SetText | src/components/admin/HeroManager.jsx:13-15 | `{ ...formData, [field]: value }` sets the named field and keeps every other field and the roles |
| Technologies.AddTechnology | src/components/admin/ProjectsManager.jsx:35-42 | an absent list is created, then one empty entry is appended after the old entries |
| Technologies.UpdateTechnology | src/components/admin/ProjectsManager.jsx:44-48 | only entry `i` changes and it takes the value |
| Technologies.RemoveTechnology | src/components/admin/ProjectsManager.jsx:50-54 | the list becomes the list without entry `i` |
| ProjectRecord.Apply | src/components/admin/ProjectsManager.jsx:24-28 | `project[field] = value` sets the edited field (or `featured`) and leaves every other field, the id and the technologies |
| SkillRecord.SetText | src/components/admin/SkillsManager.jsx:32-36 | only the named skill field changes; the id stays |
| EducationRecord.SetText | src/components/admin/AboutManager.jsx:27-34 | only the named education field changes; the id stays |
| ActivityRecords.SetInternshipText | src/components/admin/ActivitiesManager.jsx:57-64 | only the named internship field changes; id and technologies stay |
| ActivityRecords.SetCertificationText | src/components/admin/ActivitiesManager.jsx:57-64 | only the named certification field changes |
| ActivityRecords.SetCurricularText | src/components/admin/ActivitiesManager.jsx:57-64 | only the named curricular-activity field changes |
| Uploads.CheckImageFile | src/components/admin/ProjectsManager.jsx:60-68 | no alert exactly for an `image/` MIME type within the limit; a non-image type gets the type alert and an oversized image the given size alert |
| HeroSection.Displayed | src/components/Hero.jsx:20 | the stored hero record whenever there is one, else the built-in record with its name and four roles |
| HeroSection.Roles | src/components/Hero.jsx:21 | a stored roles list is used even when empty; only a missing one falls back to the four defaults |
| HeroSection.AvatarShown | src/components/Hero.jsx:144-157 | the image shows exactly when the avatar is a non-empty string, else the "Your Photo" placeholder |
| HeroSection.Next | src/components/Hero.jsx:29-44 | a step timer firing keeps the index in range and the text a prefix of the current role |
| HeroSection.EndHold | src/components/Hero.jsx:34 | the 2000 ms timer starts deletion of the completed text |
| HeroSection.StepIsOneCharacter | src/components/Hero.jsx:30-42 | typing appends the next character of the role, deleting drops the last one, a completed role arms the hold, an emptied text moves to the next role modulo the list length |
| HeroSection.Run | src/components/Hero.jsx:24-47 | any number of timer steps keeps the typewriter invariant |
| HeroSection.TypingRun | src/components/Hero.jsx:31-32 | `k` typing steps from a prefix of length `j` show the prefix of length `j + k` |
| HeroSection.DeletingRun | src/components/Hero.jsx:37-38 | `k` deleting steps from a prefix of length `j` show the prefix of length `j - k` |
| HeroSection.RoleCycle | src/components/Hero.jsx:24-47 | from an empty text a role is typed out, held, deleted, and the next role (wrapping after the last) starts from an empty text |
| HeroSection.RunSplit | src/components/Hero.jsx:24-47 | `a` steps then `b` steps are `a + b` steps |
| HeroSection.RunStopped | src/components/Hero.jsx:25 | with no step timer pending (no roles, or the hold armed) steps change nothing |
| HeroSection.Typewriter.constructor | src/components/Hero.jsx:7-9 | role 0, empty text, typing |
| HeroSection.Typewriter.Step | src/components/Hero.jsx:29-44 | the new state is `Next` of the old one, fired after 50 ms while deleting and 100 ms while typing |
| HeroSection.Typewriter.FireHold | src/components/Hero.jsx:34 | the new state is `EndHold` of the old one, after 2000 ms |
| HeroAvatarView.AvatarData | src/components/HeroAvatar.jsx:7-13 | the passed record, or a fallback with the name and two empty pictures |
| HeroAvatarView.Shown | src/components/HeroAvatar.jsx:45-69 | the animated picture exactly when hovering with a non-empty animated URL; else the still picture exactly when non-empty; else "No Avatar" |
| HeroAvatarView.HoverOnlyAddsAnimation | src/components/HeroAvatar.jsx:45-64 | without hovering the animated picture never shows, and hovering changes nothing unless it shows it |
| HeroAvatarView.DefaultShowsCaption | src/components/HeroAvatar.jsx:13 | with no record the caption shows whether or not the pointer is over the avatar |
| HeroEditor.CheckAvatarFile | src/components/admin/HeroManager.jsx:37-52 | no alert exactly for the four still-image types up to 5 MB, or for those plus MP4, WebM and GIF up to 10 MB for the animated avatar; a type outside the slot's list gets that slot's type message, and an allowed type over the slot's limit gets that slot's size message (5MB or 10MB) |
| HeroEditor.CheckCvFile | src/components/admin/HeroManager.jsx:73-90 | no alert exactly for PDF, DOC, DOCX or plain text up to 5 MB; another type gets the type message and an allowed type over 5 MB the CV size message |
| HeroEditor.AnimatedAcceptsStatic | src/components/admin/HeroManager.jsx:37-52 | every file accepted for the still avatar is accepted for the animated one |
| HeroEditor.IsVideoPreview | src/components/admin/HeroManager.jsx:270 | the case-insensitive extension test: a video preview exactly when the URL ends in `.gif`, `.mp4` or `.webm`, ignoring ASCII case |
| HeroEditor.VideoPreviewCases | src/components/admin/HeroManager.jsx:270 | upper-case extensions match; `.png` and a bare `mp4` without the dot do not |
| HeroEditor.SavedHero | src/components/admin/HeroManager.jsx:107-110 | the saved record has the blank roles filtered out and every text field of the draft |
| HeroEditor.SaveIdempotent | src/components/admin/HeroManager.jsx:107-110 | saving a saved record changes nothing |
| HeroEditor.HeroManager.constructor | src/components/admin/HeroManager.jsx:8 | the draft is the given record |
| HeroEditor.HeroManager.HandleChange | src/components/admin/HeroManager.jsx:13-15 | the draft becomes `SetText` of the old draft |
| HeroEditor.HeroManager.HandleRoleChange | src/components/admin/HeroManager.jsx:17-21 | only role `index` changes |
| HeroEditor.HeroManager.HandleAddRole | src/components/admin/HeroManager.jsx:23-25 | one empty role is appended |
| HeroEditor.HeroManager.CanRemoveRole | src/components/admin/HeroManager.jsx:172 | the remove button is offered exactly when more than one role exists |
| HeroEditor.HeroManager.HandleRemoveRole | src/components/admin/HeroManager.jsx:27-30 | the roles become `RemoveAt` of the old roles |
| HeroEditor.HeroManager.HandleImageUpload | src/components/admin/HeroManager.jsx:32-66 | no file: nothing; a rejected file: its alert and no change; a failed upload: "Failed to upload image/animated avatar: …" and no change; success: only the avatar or animated-avatar field takes the URL |
| HeroEditor.HeroManager.HandleCvUpload | src/components/admin/HeroManager.jsx:68-105 | the same cases for the CV; success sets the CV URL and the file name only |
| HeroEditor.HeroManager.HandleSave | src/components/admin/HeroManager.jsx:107-110 | hands over `SavedHero` of the draft |
| Auth.AuthErrorMessage | src/contexts/AuthContext.jsx:80-99 | the seven listed codes get their own message, every other code the generic one |
| Auth.MessageIdentifiesCode | src/contexts/AuthContext.jsx:80-99 | the message is specific exactly for the listed codes and no two codes share one |
| Auth.Signin | src/contexts/AuthContext.jsx:56-67 | success with the user exactly when the service accepts; otherwise the mapped message; never a rejection |
| Auth.Signup | src/contexts/AuthContext.jsx:35-53 | the profile update runs exactly when the account was created and a name was given; success exactly when creation and any profile update succeed; each failure carries the mapped message of its code |
| Auth.SignupWithoutName | src/contexts/AuthContext.jsx:39-45 | without a display name sign-up gives the same result as sign-in with the same answer |
| Auth.AuthProvider.constructor | src/contexts/AuthContext.jsx:22-23 | no user, loading |
| Auth.AuthProvider.OnAuthStateChanged | src/contexts/AuthContext.jsx:26-29 | the reported user is stored and loading ends |
| Auth.UseAuth | src/contexts/AuthContext.jsx:13-19 | the context value inside a provider, otherwise the error "useAuth must be used within an AuthProvider" |
| Theme.ThemeName | src/contexts/ThemeContext.jsx:78 | "dark" exactly when dark, else "light" |
| Theme.WithDarkClass | src/contexts/ThemeContext.jsx:35-39 | the `dark` class is present exactly when dark; other classes stay |
| Theme.InitialDark | src/contexts/ThemeContext.jsx:19-32 | dark exactly when nothing (or "") is stored or "dark" is stored |
| Theme.Init | src/contexts/ThemeContext.jsx:17-43 | the mount effect resolves the theme, sets the class accordingly, marks loaded and leaves storage alone |
| Theme.Apply | src/contexts/ThemeContext.jsx:45-71 | the new theme is reflected in the state, the class list and the stored `theme` key; other keys and classes stay |
| Theme.Toggle | src/contexts/ThemeContext.jsx:45-58 | the theme flips |
| Theme.SetTheme | src/contexts/ThemeContext.jsx:60-71 | dark exactly when the argument is "dark" |
| Theme.ToggleTwice | src/contexts/ThemeContext.jsx:45-58 | toggling twice restores the theme and the classes; the stored value is the original theme's name |
| Theme.SetThemeIdempotent | src/contexts/ThemeContext.jsx:60-71 | setting the same theme twice equals setting it once |
| Theme.OperationsStayConsistent | src/contexts/ThemeContext.jsx:17-71 | after mount, toggle and set, the `dark` class agrees with the state |
| Theme.ThemeProvider.constructor | src/contexts/ThemeContext.jsx:14-15 | light and not loaded, document and storage as found |
| Theme.ThemeProvider.Mount | src/contexts/ThemeContext.jsx:17-43 | the new state is `Init` of the old |
| Theme.ThemeProvider.ToggleTheme | src/contexts/ThemeContext.jsx:45-58 | the new state is `Toggle` of the old |
| Theme.ThemeProvider.SetThemeTo | src/contexts/ThemeContext.jsx:60-71 | the new state is `SetTheme` of the old |
| Theme.UseTheme | src/contexts/ThemeContext.jsx:5-11 | the context value inside a provider, otherwise the error "useTheme must be used within a ThemeProvider" |
| Bgm.NormalizeUrl | src/components/BgmToggle.jsx:15-21 | a URL is kept exactly when it is not blank, and then trimmed |
| Bgm.NormalizeIdempotent | src/components/BgmToggle.jsx:17-18 | normalising a kept URL again changes nothing |
| Bgm.Toggle | src/components/BgmToggle.jsx:39-55 | after an error or without a URL nothing happens; otherwise the audio element is created once from the URL, a playing track pauses, a stopped one plays when `play()` resolves and otherwise sets the error and stops |
| Bgm.InvPreserved | src/components/BgmToggle.jsx:15-55 | music plays only through an existing element and never after an error, across snapshots and toggles |
| Bgm.ErrorIsSticky | src/components/BgmToggle.jsx:40 | once the error is set every later toggle does nothing and the flag stays |
| Bgm.AudioCreatedOnce | src/components/BgmToggle.jsx:30-37 | the element is created only from the current URL and a later URL change does not replace it |
| Bgm.View | src/components/BgmToggle.jsx:65-79 | no button without a URL; the button is disabled exactly after an error, with the matching title and the Play/Pause caption |
| Bgm.BgmToggle.constructor | src/components/BgmToggle.jsx:8-10 | no URL, not playing, no error, no element |
| Bgm.BgmToggle.Snapshot | src/components/BgmToggle.jsx:15-21 | the new state is `OnSnapshot` of the old |
| Bgm.BgmToggle.SubscriptionError | src/components/BgmToggle.jsx:22-25 | the URL is cleared |
| Bgm.BgmToggle.TogglePlay | src/components/BgmToggle.jsx:39-55 | the new state is `Toggle` of the old |
| Bgm.BgmToggle.Unmount | src/components/BgmToggle.jsx:57-62 | the element is dropped and nothing else changes |
| ContactForm.Change | src/components/Contact.jsx:14-19 | only the edited input changes |
| ContactForm.Submit | src/components/Contact.jsx:21-24 | a submission starts exactly when the visible form is filled and not already submitting |
| ContactForm.Complete | src/components/Contact.jsx:26-29 | the 2000 ms timer shows the thank-you panel and clears every field |
| ContactForm.ClearSubmitted | src/components/Contact.jsx:32 | the 5000 ms timer hides the panel and keeps the form |
| ContactForm.InvPreserved | src/components/Contact.jsx:21-34 | never both submitting and showing the thank-you panel |
| ContactForm.Lifecycle | src/components/Contact.jsx:21-34 | a filled idle form goes to submitting, then the panel over an empty form, then the empty idle form |
| ContactForm.View | src/components/Contact.jsx:166-249 | the panel exactly while submitted; otherwise the button is disabled exactly while submitting and reads "Sending..." or "Send Message" |
| ContactForm.NoDoubleSubmit | src/components/Contact.jsx:235 | while submitting, submitting again changes nothing and the button is disabled |
| ContactForm.Contact.constructor | src/components/Contact.jsx:6-12 | the empty idle form |
| ContactForm.Contact.HandleChange | src/components/Contact.jsx:14-19 | the form becomes `Change` of the old form |
| ContactForm.Contact.HandleSubmit | src/components/Contact.jsx:21-24 | the new state is `Submit` of the old |
| ContactForm.Contact.SubmitTimerFires | src/components/Contact.jsx:26-29 | the new state is `Complete` of the old |
| ContactForm.Contact.ResetTimerFires | src/components/Contact.jsx:32 | the new state is `ClearSubmitted` of the old |
| ContactEditor.Change | src/components/admin/ContactFooterManager.jsx:16-21 | only the named top-level field changes; the links stay |
| ContactEditor.SocialChange | src/components/admin/ContactFooterManager.jsx:23-31 | one link is set, creating the map when absent; the other links and fields stay and no other key appears |
| ContactEditor.FilterSocial | src/components/admin/ContactFooterManager.jsx:35-37 | a link is kept exactly when its value is not blank, with its value untrimmed |
| ContactEditor.FilterSocialIdempotent | src/components/admin/ContactFooterManager.jsx:35-37 | filtering again drops nothing more |
| ContactEditor.SaveContact | src/components/admin/ContactFooterManager.jsx:33-43 | the saved record has the filtered links and every top-level field of the draft |
| ContactEditor.SaveWithoutSocial | src/components/admin/ContactFooterManager.jsx:36 | a missing link map is saved as an empty map |
| ContactEditor.SaveIdempotent | src/components/admin/ContactFooterManager.jsx:33-43 | saving a saved record changes nothing |
| ContactEditor.ClearedLinkIsDropped | src/components/admin/ContactFooterManager.jsx:23-43 | a link cleared in the form is absent from the saved record |
| Dashboard.NormalizeHero | src/pages/AdminDashboard.jsx:53-63 | a present snapshot fills the five draft fields, an absent field becoming "" (or one empty role) |
| Dashboard.SavedHero | src/pages/AdminDashboard.jsx:103-106 | the written record is the draft with blank roles removed and no animated avatar or CV |
| Dashboard.SaveThenLoad | src/pages/AdminDashboard.jsx:53-63 | loading a saved hero gives back the draft minus the blank roles |
| Dashboard.SaveDropsOtherHeroFields | src/pages/AdminDashboard.jsx:103-106 | a save after a load erases a stored animated avatar and CV |
| Dashboard.SetHeroText | src/pages/AdminDashboard.jsx:249-300 | only the edited text input changes; the roles stay |
| Dashboard.NewProject | src/pages/AdminDashboard.jsx:108-121 | the appended project: id `now`, the placeholder title and description, no technologies, empty links, the `frontend` category, not featured |
| Dashboard.SaveMessage | src/pages/AdminDashboard.jsx:95-98 | "success" with "Data saved successfully!" exactly on success, else "error" with "Failed to save data" |
| Dashboard.Banner | src/pages/AdminDashboard.jsx:216-228 | no banner exactly for empty text; red exactly for an error |
| Dashboard.SaveBanner | src/pages/AdminDashboard.jsx:91-101 | every save outcome is shown, green on success and red on failure |
| Dashboard.WritePath | src/pages/AdminDashboard.jsx:94 | the hero goes to `portfolio/hero`, the projects to `portfolio/projects` |
| Dashboard.CheckUser | src/pages/AdminDashboard.jsx:39-43 | without a user nothing renders and the page navigates to `/admin/signin` |
| Dashboard.HeaderName | src/pages/AdminDashboard.jsx:174 | the display name, or "Admin" without one |
| Dashboard.AdminDashboard.constructor | src/pages/AdminDashboard.jsx:22-36 | the hero tab, not saving, no message, the empty hero draft and empty lists |
| Dashboard.AdminDashboard.OnHeroSnapshot | src/pages/AdminDashboard.jsx:53-63 | a present record replaces the draft, an absent one leaves it, nothing else changes |
| Dashboard.AdminDashboard.OnProjectsSnapshot | src/pages/AdminDashboard.jsx:66-69 | the projects become the snapshot when it is an array, else empty |
| Dashboard.AdminDashboard.OnSkillsSnapshot | src/pages/AdminDashboard.jsx:71-74 | the skills become the snapshot when it is an array, else empty |
| Dashboard.AdminDashboard.SelectTab | src/pages/AdminDashboard.jsx:194-202 | only the active tab changes |
| Dashboard.AdminDashboard.ChangeHeroText | src/pages/AdminDashboard.jsx:249-300 | only the edited hero field changes |
| Dashboard.AdminDashboard.HandleAddRole | src/pages/AdminDashboard.jsx:138-140 | one empty role is appended |
| Dashboard.AdminDashboard.HandleRemoveRole | src/pages/AdminDashboard.jsx:142-145 | the roles become `RemoveAt` of the old roles |
| Dashboard.AdminDashboard.HandleRoleChange | src/pages/AdminDashboard.jsx:147-151 | only role `index` changes |
| Dashboard.AdminDashboard.HandleAddProject | src/pages/AdminDashboard.jsx:108-121 | `NewProject(now)` is appended |
| Dashboard.AdminDashboard.HandleUpdateProject | src/pages/AdminDashboard.jsx:123-127 | only project `index` changes, by the edit |
| Dashboard.AdminDashboard.HandleRemoveProject | src/pages/AdminDashboard.jsx:129-132 | the projects become `RemoveAt` of the old list |
| Dashboard.AdminDashboard.HandleSaveHero | src/pages/AdminDashboard.jsx:103-106 | `saving` is set and the filtered hero is written to `portfolio/hero` |
| Dashboard.AdminDashboard.HandleSaveProjects | src/pages/AdminDashboard.jsx:134-136 | `saving` is set and the draft list is written unchanged |
| Dashboard.AdminDashboard.WriteSettled | src/pages/AdminDashboard.jsx:91-101 | whatever the outcome `saving` drops, the banner shows the outcome and a clear timer starts |
| Dashboard.AdminDashboard.ClearTimerFires | src/pages/AdminDashboard.jsx:86-89 | one pending timer clears the banner, whichever save it belonged to |
| Dashboard.AdminDashboard.HandleLogout | src/pages/AdminDashboard.jsx:77-84 | navigation to `/admin/signin` exactly when sign-out succeeds |
| ProjectsEditor.NewProject | src/components/admin/ProjectsManager.jsx:10-22 | the appended project: id `now`, placeholder title and description, no technologies, empty image and links, no category, not featured |
| ProjectsEditor.CheckProjectImage | src/components/admin/ProjectsManager.jsx:60-68 | no alert exactly for an `image/` type of at most 5 MB; a non-image gets "Please select an image file" and an oversized image the 5MB message |
| ProjectsEditor.ProjectsManager.constructor | src/components/admin/ProjectsManager.jsx:7 | the draft is the given list |
| ProjectsEditor.ProjectsManager.HandleAddProject | src/components/admin/ProjectsManager.jsx:10-22 | `NewProject(now)` is appended |
| ProjectsEditor.ProjectsManager.HandleUpdateProject | src/components/admin/ProjectsManager.jsx:24-28 | only project `index` changes, by the edit |
| ProjectsEditor.ProjectsManager.HandleRemoveProject | src/components/admin/ProjectsManager.jsx:30-33 | the draft becomes `RemoveAt` of the old one |
| ProjectsEditor.ProjectsManager.HandleAddTechnology | src/components/admin/ProjectsManager.jsx:35-42 | only that project's technologies change, by `AddTechnology` |
| ProjectsEditor.ProjectsManager.HandleUpdateTechnology | src/components/admin/ProjectsManager.jsx:44-48 | only that project's technologies change, by `UpdateTechnology` |
| ProjectsEditor.ProjectsManager.HandleRemoveTechnology | src/components/admin/ProjectsManager.jsx:50-54 | only that project's technologies change, by `RemoveTechnology` |
| ProjectsEditor.ProjectsManager.HandleImageUpload | src/components/admin/ProjectsManager.jsx:56-79 | no file, rejection and failure leave the draft; success sets only that project's image |
| ProjectsEditor.ProjectsManager.HandleSave | src/components/admin/ProjectsManager.jsx:81-83 | hands over the draft unchanged |
| SkillsEditor.InitialSkills | src/components/admin/SkillsManager.jsx:7 | the given skills when an array, else empty |
| SkillsEditor.NewSkill | src/components/admin/SkillsManager.jsx:21-30 | id `now` and every text field empty |
| SkillsEditor.CheckIconFile | src/components/admin/SkillsManager.jsx:51-59 | no alert exactly for an `image/` type of at most 2 MB; a non-image gets "Please select an image file" and an oversized image the 2MB message |
| SkillsEditor.ChooseSlug | src/components/admin/SkillsManager.jsx:145-151 | the slug is set; a non-empty slug also clears the uploaded icon URL |
| SkillsEditor.UseUploadedIcon | src/components/admin/SkillsManager.jsx:63-66 | the uploaded URL is set and the slug cleared |
| SkillsEditor.PreviewIconOf | src/components/admin/SkillsManager.jsx:241-257 | the uploaded icon first, else the simple-icons image of the slug, else the emoji or a light bulb |
| SkillsEditor.PreviewName | src/components/admin/SkillsManager.jsx:260 | the name, or "Technology Name" |
| SkillsEditor.PreviewFollowsLastChoice | src/components/admin/SkillsManager.jsx:63-66 | after choosing a listed slug the preview shows it, after an upload the uploaded icon |
| SkillsEditor.SkillsManager.constructor | src/components/admin/SkillsManager.jsx:7 | the draft is `InitialSkills` of the property |
| SkillsEditor.SkillsManager.HandleAddSkill | src/components/admin/SkillsManager.jsx:21-30 | `NewSkill(now)` is appended |
| SkillsEditor.SkillsManager.HandleUpdateSkill | src/components/admin/SkillsManager.jsx:32-36 | only skill `index` changes, by `SetText` |
| SkillsEditor.SkillsManager.HandleRemoveSkill | src/components/admin/SkillsManager.jsx:38-41 | the draft becomes `RemoveAt` of the old one |
| SkillsEditor.SkillsManager.HandleSelectSlug | src/components/admin/SkillsManager.jsx:145-151 | only skill `index` changes, by `ChooseSlug` |
| SkillsEditor.SkillsManager.HandleIconUpload | src/components/admin/SkillsManager.jsx:47-72 | no file, rejection and failure leave the draft; success applies `UseUploadedIcon` to that skill only |
| SkillsEditor.SkillsManager.HandleSave | src/components/admin/SkillsManager.jsx:43-45 | hands over the draft unchanged |
| ActivitiesEditor.InitialDraft | src/components/admin/ActivitiesManager.jsx:6-10 | each section as given when present, else empty |
| ActivitiesEditor.NewInternship | src/components/admin/ActivitiesManager.jsx:12-26 | id `now`, empty fields and an empty technologies list |
| ActivitiesEditor.NewCertification | src/components/admin/ActivitiesManager.jsx:28-40 | id `now` and empty fields |
| ActivitiesEditor.NewActivity | src/components/admin/ActivitiesManager.jsx:42-55 | id `now`, kind `co-curricular` and empty fields |
| ActivitiesEditor.UpdateItem | src/components/admin/ActivitiesManager.jsx:57-64 | one field of one item of the edited section changes; lengths and the other sections stay |
| ActivitiesEditor.RemoveItem | src/components/admin/ActivitiesManager.jsx:66-72 | only the named section loses the item at `index` |
| ActivitiesEditor.AddThenRemove | src/components/admin/ActivitiesManager.jsx:12-72 | removing the item just added to any section restores the draft |
| ActivitiesEditor.WithTechnologies | src/components/admin/ActivitiesManager.jsx:74-102 | only internship `i`'s technologies change |
| ActivitiesEditor.ActivitiesManager.constructor | src/components/admin/ActivitiesManager.jsx:6-10 | the draft is `InitialDraft` |
| ActivitiesEditor.ActivitiesManager.HandleAddInternship | src/components/admin/ActivitiesManager.jsx:12-26 | `NewInternship(now)` is appended to the internships only |
| ActivitiesEditor.ActivitiesManager.HandleAddCertification | src/components/admin/ActivitiesManager.jsx:28-40 | `NewCertification(now)` is appended to the certifications only |
| ActivitiesEditor.ActivitiesManager.HandleAddActivity | src/components/admin/ActivitiesManager.jsx:42-55 | `NewActivity(now)` is appended to the curricular activities only |
| ActivitiesEditor.ActivitiesManager.HandleUpdateItem | src/components/admin/ActivitiesManager.jsx:57-64 | the draft becomes `UpdateItem` of the old one |
| ActivitiesEditor.ActivitiesManager.HandleRemoveItem | src/components/admin/ActivitiesManager.jsx:66-72 | the draft becomes `RemoveItem` of the old one |
| ActivitiesEditor.ActivitiesManager.HandleAddTechnology | src/components/admin/ActivitiesManager.jsx:74-84 | internship `i` gets `AddTechnology` of its list |
| ActivitiesEditor.ActivitiesManager.HandleUpdateTechnology | src/components/admin/ActivitiesManager.jsx:86-93 | internship `i` gets `UpdateTechnology` of its list |
| ActivitiesEditor.ActivitiesManager.HandleRemoveTechnology | src/components/admin/ActivitiesManager.jsx:95-102 | internship `i` gets `RemoveTechnology` of its list |
| ActivitiesEditor.ActivitiesManager.HandleSave | src/components/admin/ActivitiesManager.jsx:104-106 | hands over the draft unchanged |
| AboutEditor.InitialEducation | src/components/admin/AboutManager.jsx:7-9 | the given list when present, else empty |
| AboutEditor.NewEducation | src/components/admin/AboutManager.jsx:11-25 | id `now`, status `completed`, icon `book`, empty texts |
| AboutEditor.DisplayedStatus | src/components/admin/AboutManager.jsx:149 | the status, or `completed` when absent or empty |
| AboutEditor.DisplayedIconType | src/components/admin/AboutManager.jsx:163 | the icon type, or `book` when absent or empty |
| AboutEditor.NewEntryShowsDefaults | src/components/admin/AboutManager.jsx:11-25 | a new entry displays the same defaults as an old entry without those fields, and its icon is one of the options |
| AboutEditor.AboutManager.constructor | src/components/admin/AboutManager.jsx:7-9 | the draft is `InitialEducation` |
| AboutEditor.AboutManager.HandleAddEducation | src/components/admin/AboutManager.jsx:11-25 | `NewEducation(now)` is appended |
| AboutEditor.AboutManager.HandleUpdateEducation | src/components/admin/AboutManager.jsx:27-34 | only entry `index` changes, by `SetText` |
| AboutEditor.AboutManager.HandleRemoveEducation | src/components/admin/AboutManager.jsx:36-42 | the list becomes `RemoveAt` of the old one |
| AboutEditor.AboutManager.HandleSave | src/components/admin/AboutManager.jsx:44-46 | hands over `{ education }` unchanged |
| ProjectsView.DisplayedProjects | src/components/Projects.jsx:46 | a stored array, even an empty one, else the three built-in projects |
| ProjectsView.Chips | src/components/Projects.jsx:167-180 | the first three technologies, in order |
| ProjectsView.MoreCount | src/components/Projects.jsx:181-185 | "+N more" exactly with more than three, N being the rest |
| ProjectsView.ChipsAndMoreCoverAll | src/components/Projects.jsx:167-185 | chips and count account for every technology once |
| ProjectsView.CardOf | src/components/Projects.jsx:132-239 | image exactly for a non-empty image URL, the featured badge, the chips, the count and the links with `#` fallbacks, a missing list read as empty |
| ProjectsView.CardAsWritten | src/components/Projects.jsx:167-185 | the render fails exactly for a project without a technologies list |
| ProjectsView.CardAsWrittenAgrees | src/components/Projects.jsx:167-185 | with a list present the written card is the intended one; a concrete project without one breaks it |
| ProjectsView.DefaultCards | src/components/Projects.jsx:10-44 | each built-in project shows three chips, "+1 more" and `#` links |
| ProjectsView.ProjectsSection | src/components/Projects.jsx:61-250 | a spinner exactly while loading; the empty message exactly for a stored empty array; else one card per project |
| SkillsView.DisplayedSkills | src/components/Skills.jsx:103-106 | a non-empty stored array, else the twenty built-in skills; never empty |
| SkillsView.IconSlugs | src/components/Skills.jsx:108 | exactly the non-empty slugs of the skills |
| SkillsView.IconSlugsConcat | src/components/Skills.jsx:108 | the slugs keep the skills' order |
| SkillsView.AllSlugsKept | src/components/Skills.jsx:108 | when every skill has a slug none is dropped |
| SkillsView.DefaultSlugs | src/components/Skills.jsx:80-108 | the cloud gets all twenty built-in slugs |
| SkillsView.ThemeColours | src/components/Skills.jsx:34-37 | the light colours exactly for the light theme |
| SkillsView.SkillsSection | src/components/Skills.jsx:129-212 | a spinner exactly while loading; else the cloud exactly when some slug exists, and one button per skill with its name |
| AboutView.DisplayedEducation | src/components/About.jsx:42 | a stored list, even an empty one, else the three built-in entries |
| AboutView.IconFor | src/components/About.jsx:44-55 | award and code get their icons, anything else the book |
| AboutView.EntryAt | src/components/About.jsx:127-169 | even positions reversed with right padding, odd ones plain with left padding; the badge exactly for `ongoing` |
| AboutView.SidesAlternate | src/components/About.jsx:130-141 | neighbouring entries sit on opposite sides |
| AboutView.AboutSection | src/components/About.jsx:74-169 | a spinner exactly while loading, else one entry per education item at its position |
| AboutView.DefaultBadges | src/components/About.jsx:9-40 | of the built-in entries only the first is ongoing |
| FooterDockView.SocialUrl | src/components/FooterDock.jsx:22-25 | the stored link for a key when the record and map exist |
| FooterDockView.KeepPresent | src/components/FooterDock.jsx:26 | exactly the links whose URL is present and not blank survive, with the URL as stored |
| FooterDockView.Kept | src/components/FooterDock.jsx:26 | one pair yields its icon, with the URL as stored, exactly when the URL is present and not blank, and nothing otherwise |
| FooterDockView.KeepPresentConcat | src/components/FooterDock.jsx:26 | the filter keeps the order of the list: filtering a concatenation is the concatenation of the filtered parts |
| FooterDockView.Candidates | src/components/FooterDock.jsx:21-25 | the four platforms in order with their stored URLs |
| FooterDockView.DockLinks | src/components/FooterDock.jsx:21-26 | at most four icons, at most one per platform, in the order GitHub, LinkedIn, Instagram, Twitter |
| FooterDockView.KeptOwnPlatformOnly | src/components/FooterDock.jsx:21-26 | a platform's icon among the four filtered pairs can only come from that platform's own pair |
| FooterDockView.DockLinkShown | src/components/FooterDock.jsx:21-26 | a platform's icon shows, linking to the stored URL, exactly when that URL is stored and not blank |
| FooterDockView.NoSocialNoIcons | src/components/FooterDock.jsx:21-26 | without stored links the dock shows no icon |
| FooterDockView.KeepNothing | src/components/FooterDock.jsx:26 | with no URL present nothing survives |
| FooterDockView.ThemeButtonTitle | src/components/FooterDock.jsx:154 | "Switch to Light Mode" exactly when dark, else "Switch to Dark Mode" |
| FooterDockView.ScrollTarget | src/components/FooterDock.jsx:28-31 | scrolls exactly when a section with that id exists |
| FooterDockView.Title | src/components/FooterDock.jsx:98 | "Scroll to " followed by the caption |
| FooterDockView.TwoButtonsScrollNowhere | src/components/FooterDock.jsx:86-89 | as written, "home" and "work experience" scroll nowhere |
| FooterDockView.EveryButtonScrolls | src/components/FooterDock.jsx:86-98 | with targets `hero` and `activities` every button scrolls, with the same captions and tooltips |
| FooterView.SocialLinks | src/components/Footer.jsx:42 | a stored list, even an empty one, else the four built-in links |
| FooterView.QuickLinksReachSections | src/components/Footer.jsx:44-50 | every quick link is `#` followed by the id of a rendered section |
| FooterView.GetInTouch | src/components/Footer.jsx:131-133 | each line is the stored non-empty value or its fallback, never empty |
| FooterBottomView.Email | src/components/FooterBottom.jsx:10 | the stored non-empty e-mail, else the fallback; never empty |
| FooterBottomView.Phone | src/components/FooterBottom.jsx:11 | non-empty exactly when a non-empty phone is stored |
| FooterBottomView.CreditHref | src/components/FooterBottom.jsx:12 | the stored GitHub link when non-empty, else the fallback profile |
| FooterBottomView.StripOf | src/components/FooterBottom.jsx:39-70 | the mail link exactly with an e-mail, the phone link exactly with a phone, the credit link |
| FooterBottomView.StripLinks | src/components/FooterBottom.jsx:39-60 | the mail link always shows and mails the address; the phone link shows exactly with a stored phone and dials it |

## Left out

- Element aliasing: the update handlers copy the list shallowly and assign into the shared element object, so the old draft's element changes too. The model replaces the element by value.
- Stale closures: after an `await`, an upload handler updates the list captured before the upload, so an edit made during the upload is lost. The model applies the upload to the current draft.
- The `uploading…` spinner flags of the editors and the upload progress are not modelled; they only disable inputs.
- The format check of the contact form's `type="email"` input is the browser's and is not modelled; `Filled` only requires non-empty fields.
- The system colour-scheme query read on theme mount is not modelled; the code never uses its result.
- Animation, layout, class names and icons (the motion library, CSS classes) are not modelled.
- The data hooks, the database provider and its status banner, the spinner, the header, the theme toggle wrapper and the Cloudinary helper are context, not part of this model; snapshots are parameters.
- The activities view is not part of this model; only its section id is used.
- `Date.now()`, the identity service, the asset host, the database write, `audio.play()` and sign-out are parameters giving their outcome; their own behaviour is outside the model.
- The icon cloud's drawing, the fetch of the simple-icons images and the colour-contrast arithmetic of the cloud library are floating-point rendering and are left out.
- HeroSection.Typewriter: the roles are fixed at construction; a roles change while the animation runs is not modelled.
- HeroSection.Next: role text is a sequence of Unicode characters, while the source's `length` and `slice` count UTF-16 code units; a role holding a character outside the Basic Multilingual Plane (an emoji) takes one more step per such character each way in the source, and one of those steps shows half of the character. The step counts stated by HeroSection.RoleCycle, TypingRun and DeletingRun are exact for roles made of Basic Multilingual Plane characters only.
- HeroAvatarView.Shown: the image `alt` texts are not modelled, and the hover flag is a parameter set by the pointer events.
- Dashboard.AdminDashboard.ClearTimerFires: the five-second timers are counted, not ordered by time, so the model does not say which save's banner a timer clears.
- Auth.AuthProvider: the unsubscribe on unmount and the `logout` wrapper's rethrow are represented only through `HandleLogout`'s outcome parameter.
- Bgm.BgmToggle.TogglePlay: the audio element's `loop` and `preload` settings and the pause call's effect on sound are not modelled.

## Findings

| source | as written | input that shows it | evidently intended | confidence | as-written member | corrected member |
|---|---|---|---|---|---|---|
| src/components/Projects.jsx:167-185 | the card reads `project.technologies.slice` and `.length` with no guard, while both editors treat the list as possibly absent | a stored project without a `technologies` field | show no chips and no count for such a project | high, not executed | ProjectsView.CardAsWrittenAgrees | ProjectsView.CardOf |
| src/components/FooterDock.jsx:86-89 | each section button scrolls to the element whose id is its caption; no element has id `home` or `work experience` | clicking the "home" or "work experience" button | scroll to the hero section and to the activities ("Experience & Activities") section | medium, not executed | FooterDockView.TwoButtonsScrollNowhere | FooterDockView.EveryButtonScrolls |

Two behaviours follow from the code and are proved, but may be deliberate:
saving the hero from the dashboard erases a stored animated avatar and CV
(`Dashboard.SaveDropsOtherHeroFields`), and a failed profile update makes
sign-up report failure although the account was created (`Auth.Signup`).
